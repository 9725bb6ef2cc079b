/** The fstab fix-up of encrypted installs (`firstboot.rs`): every mention of the
    root partition's label becomes the mapper device. */
module Fstab {
  import opened Machine

  /** Rust's `str::replace`: leftmost matches first, without overlap. */
  function ReplaceAll(s: string, part: string, put: string): string
    requires part != ""
  {
    if s == "" then ""
    else if part <= s then put + ReplaceAll(s[|part|..], part, put)
    else [s[0]] + ReplaceAll(s[1..], part, put)
  }

  predicate OccursAt(s: string, part: string, i: nat) {
    i <= |s| && part <= s[i..]
  }

  /** `a` and `b` differ somewhere within the shorter of them. */
  predicate Clash(a: string, b: string) {
    exists k :: 0 <= k < |a| && k < |b| && a[k] != b[k]
  }

  /** No match of `part` can begin inside `put`, or end inside it having begun before. */
  predicate Apart(part: string, put: string) {
    && part != ""
    && (forall i :: 0 <= i < |put| ==> Clash(put[i..], part))
    && (forall k :: 0 < k < |part| ==> Clash(part[k..], put))
  }

  lemma ClashKept(a: string, b: string, t: string)
    requires Clash(a, b)
    ensures !(b <= a + t)
  {
    var k :| 0 <= k < |a| && k < |b| && a[k] != b[k];
    assert (a + t)[k] == a[k];
  }

  /** A tail of `part` that starts the result started the text. */
  lemma {:induction false} TailWasThere(s: string, part: string, put: string, k: nat)
    requires Apart(part, put) && 0 < k <= |part| && part[k..] <= ReplaceAll(s, part, put)
    ensures part[k..] <= s
  {
    if k < |part| && s != "" {
      if !(part <= s) {
        var rest := ReplaceAll(s[1..], part, put);
        assert ([s[0]] + rest)[1..] == rest && part[k..][1..] == part[k + 1..];
        TailWasThere(s[1..], part, put, k + 1);
        assert part[k..] == [s[0]] + part[k + 1..] && s == [s[0]] + s[1..];
      }
    }
  }

  /** The result does not contain `part`. */
  lemma {:induction false} NoneLeft(s: string, part: string, put: string, i: nat)
    requires Apart(part, put)
    ensures !OccursAt(ReplaceAll(s, part, put), part, i)
  {
    var out := ReplaceAll(s, part, put);
    if s != "" && i <= |out| {
      if part <= s {
        var rest := ReplaceAll(s[|part|..], part, put);
        if i < |put| {
          ClashKept(put[i..], part, rest);
          assert out[i..] == put[i..] + rest;
        } else {
          NoneLeft(s[|part|..], part, put, i - |put|);
          assert out[i..] == rest[i - |put|..];
        }
      } else {
        var rest := ReplaceAll(s[1..], part, put);
        if i == 0 {
          assert out[1..] == rest;
          if part <= out {
            assert part[1..] <= rest;
            TailWasThere(s[1..], part, put, 1);
          }
        } else {
          NoneLeft(s[1..], part, put, i - 1);
          assert out[i..] == rest[i - 1..];
        }
      }
    }
  }

  /** A text without `part` is left as it is. */
  lemma {:induction false} NothingToReplace(s: string, part: string, put: string)
    requires part != "" && forall i :: 0 <= i <= |s| ==> !OccursAt(s, part, i)
    ensures ReplaceAll(s, part, put) == s
  {
    if s != "" {
      assert !OccursAt(s, part, 0) && s[0..] == s;
      forall i | 0 <= i <= |s[1..]|
        ensures !OccursAt(s[1..], part, i)
      {
        assert !OccursAt(s, part, i + 1) && s[1..][i..] == s[i + 1..];
      }
      NothingToReplace(s[1..], part, put);
    }
  }

  const LABEL: string := "/dev/disk/by-partlabel/root"
  const MAPPER: string := "/dev/mapper/root"

  lemma MapperClashes(i: nat)
    requires i < |MAPPER|
    ensures Clash(MAPPER[i..], LABEL)
  {
    var k := if i == 0 then 5 else if i == 4 || i == 11 then 1 else 0;
    assert MAPPER[i..][k] == MAPPER[i + k] != LABEL[k];
  }

  lemma LabelClashes(i: nat)
    requires 0 < i < |LABEL|
    ensures Clash(LABEL[i..], MAPPER)
  {
    var k := if i == 4 then 2 else if i == 9 || i == 22 then 1 else 0;
    assert LABEL[i..][k] == LABEL[i + k] != MAPPER[k];
  }

  lemma LabelApart()
    ensures Apart(LABEL, MAPPER)
  {
    hide Clash;
    forall i | 0 <= i < |MAPPER|
      ensures Clash(MAPPER[i..], LABEL)
    {
      MapperClashes(i);
    }
    forall i | 0 < i < |LABEL|
      ensures Clash(LABEL[i..], MAPPER)
    {
      LabelClashes(i);
    }
  }

  /** The contents the fix-up writes; contents of the installer's own do not mention the label. */
  function ForMapper(content: Content): Content {
    match content
    case Original(text) => Original(ReplaceAll(text, LABEL, MAPPER))
    case _ => content
  }

  predicate MentionsLabel(content: Content) {
    content.Original? && exists i :: 0 <= i <= |content.text| && OccursAt(content.text, LABEL, i)
  }

  /** The fix-up removes every mention of the label, and changes the contents exactly if there was one. */
  lemma FixupExact(content: Content)
    ensures !MentionsLabel(ForMapper(content))
    ensures ForMapper(content) != content <==> MentionsLabel(content)
  {
    if content.Original? {
      LabelApart();
      var out := ReplaceAll(content.text, LABEL, MAPPER);
      forall i | 0 <= i <= |out|
        ensures !OccursAt(out, LABEL, i)
      {
        NoneLeft(content.text, LABEL, MAPPER, i);
      }
      if !MentionsLabel(content) {
        NothingToReplace(content.text, LABEL, MAPPER);
      }
    }
  }
}
