/** Generation of the recovery passphrase (`encryption.rs`). */
module Passphrase {
  import opened Wrappers
  import opened Text
  import opened Validators

  const WORD_COUNT: nat := 6

  predicate AllAlnum(w: string) {
    forall i :: 0 <= i < |w| ==> IsAlnum(w[i])
  }

  predicate Qualifies(w: string) {
    ByteLen(w) >= 5 && AllAlnum(w)
  }

  /** The sampled words that pass the filter, lower-cased, in sampling order. */
  function Usable(words: seq<string>): seq<string> {
    if words == [] then []
    else if Qualifies(words[0]) then [Lower(words[0])] + Usable(words[1..])
    else Usable(words[1..])
  }

  /** Words taken from the sample stream; `None` while it has not yielded enough. */
  function Generate(words: seq<string>): Option<string> {
    if |Usable(words)| < WORD_COUNT then None else Some(Join(Usable(words)[..WORD_COUNT], '-'))
  }

  lemma {:induction false} UsableWords(words: seq<string>, i: nat)
    requires i < |Usable(words)|
    ensures var w := Usable(words)[i];
      |w| >= 5 && forall j :: 0 <= j < |w| ==> IsLowerAlnum(w[j])
  {
    if Qualifies(words[0]) {
      AsciiByteLen(words[0]);
      if i > 0 {
        UsableWords(words[1..], i - 1);
      }
    } else {
      UsableWords(words[1..], i);
    }
  }

  lemma {:induction false} JoinShape(parts: seq<string>)
    requires |parts| >= 1
    requires forall i :: 0 <= i < |parts| ==> |parts[i]| >= 5 && forall j :: 0 <= j < |parts[i]| ==> IsLowerAlnum(parts[i][j])
    ensures |Join(parts, '-')| >= 6 * |parts| - 1
    ensures forall k :: 0 <= k < |Join(parts, '-')| ==> IsPrintable(Join(parts, '-')[k])
  {
    if |parts| > 1 {
      JoinShape(parts[1..]);
    }
  }

  /** Every sample stream with six qualifying words yields a passphrase the
      validator accepts, and its pieces are those six words. */
  lemma GeneratedPassphrase(words: seq<string>)
    requires |Usable(words)| >= WORD_COUNT
    ensures Generate(words).Some?
    ensures ValidateRecoveryPassphrase(Generate(words).value).Pass?
    ensures Split(Generate(words).value, '-') == Usable(words)[..WORD_COUNT]
  {
    var six := Usable(words)[..WORD_COUNT];
    forall i | 0 <= i < |six|
      ensures |six[i]| >= 5 && (forall j :: 0 <= j < |six[i]| ==> IsLowerAlnum(six[i][j])) && '-' !in six[i]
    {
      UsableWords(words, i);
    }
    JoinShape(six);
    SplitJoin(six, '-');
    ValidatePassphraseExact(Join(six, '-'));
  }
}
