/** The accept/reject rules of `config.rs`. */
module Validators {
  import opened Wrappers
  import opened Text

  datatype HostnameError = EmptyHostname | HostnameTooLong(bytes: nat) | EdgeHyphen | BadCharacter

  const MAX_HOSTNAME: nat := 63

  predicate IsHostnameChar(c: char) {
    IsAlnum(c) || c == '-'
  }

  function ValidateHostname(hostname: string): Outcome<HostnameError> {
    if hostname == "" then Fail(EmptyHostname)
    else if ByteLen(hostname) > MAX_HOSTNAME then Fail(HostnameTooLong(ByteLen(hostname)))
    else if hostname[0] == '-' || hostname[|hostname| - 1] == '-' then Fail(EdgeHyphen)
    else if exists i :: 0 <= i < |hostname| && !IsHostnameChar(hostname[i]) then Fail(BadCharacter)
    else Pass
  }

  /** A host name label in the sense of section 2.1 of RFC 1123, counted in characters. */
  predicate IsHostnameLabel(s: string) {
    && 1 <= |s| <= MAX_HOSTNAME
    && s[0] != '-' && s[|s| - 1] != '-'
    && forall i :: 0 <= i < |s| ==> IsHostnameChar(s[i])
  }

  /** The validator measures bytes, yet accepts exactly the labels measured in characters. */
  lemma ValidateHostnameExact(hostname: string)
    ensures ValidateHostname(hostname).Pass? <==> IsHostnameLabel(hostname)
  {
    if forall i :: 0 <= i < |hostname| ==> IsHostnameChar(hostname[i]) {
      AsciiByteLen(hostname);
    }
  }

  datatype PassphraseError = PassphraseTooShort(bytes: nat) | UnprintableAt(position: nat)

  const MIN_PASSPHRASE: nat := 25

  predicate IsPrintable(c: char) {
    '!' <= c <= '~'
  }

  function FirstUnprintable(s: string): (k: nat)
    ensures k <= |s|
    ensures k < |s| ==> !IsPrintable(s[k])
    ensures forall i :: 0 <= i < k ==> IsPrintable(s[i])
  {
    if s == "" || !IsPrintable(s[0]) then 0 else 1 + FirstUnprintable(s[1..])
  }

  function ValidateRecoveryPassphrase(passphrase: string): Outcome<PassphraseError> {
    if ByteLen(passphrase) < MIN_PASSPHRASE then Fail(PassphraseTooShort(ByteLen(passphrase)))
    else if FirstUnprintable(passphrase) < |passphrase| then Fail(UnprintableAt(FirstUnprintable(passphrase)))
    else Pass
  }

  /** Accepted passphrases are exactly those of at least 25 printable ASCII characters. */
  lemma ValidatePassphraseExact(p: string)
    ensures ValidateRecoveryPassphrase(p).Pass?
       <==> |p| >= MIN_PASSPHRASE && forall i :: 0 <= i < |p| ==> IsPrintable(p[i])
  {
    if forall i :: 0 <= i < |p| ==> IsPrintable(p[i]) {
      AsciiByteLen(p);
    }
  }
}
