/** Storage keys derived from e-mail addresses (`DatabaseManager.safeEmail`). */
module Identity {

  /** Every occurrence of `from` in `s` replaced by `to`, as Swift's
      `replacingOccurrences(of:with:)` does for a one-character pattern. */
  function Replace(s: string, from: char, to: char): (r: string)
    ensures |r| == |s|
    ensures forall i :: 0 <= i < |s| ==> r[i] == (if s[i] == from then to else s[i])
  {
    if s == [] then [] else [if s[0] == from then to else s[0]] + Replace(s[1..], from, to)
  }

  /** The key under which a user's node is stored: every `.` and then every `@`
      replaced by `-`. */
  function SafeEmail(emailAddress: string): (key: string)
    ensures |key| == |emailAddress|
    ensures '.' !in key && '@' !in key
    ensures forall i :: 0 <= i < |emailAddress| ==>
      key[i] == (if emailAddress[i] == '.' || emailAddress[i] == '@' then '-' else emailAddress[i])
  {
    var dotless := Replace(emailAddress, '.', '-');
    Replace(dotless, '@', '-')
  }

  /** A string that already holds neither `.` nor `@` is its own key. */
  lemma SafeEmailFixesKeys(key: string)
    requires '.' !in key && '@' !in key
    ensures SafeEmail(key) == key
  {
    var k := SafeEmail(key);
    assert |k| == |key|;
    assert forall i :: 0 <= i < |key| ==> k[i] == key[i];
  }

  /** Deriving a key twice gives the same key as deriving it once. */
  lemma SafeEmailIdempotent(emailAddress: string)
    ensures SafeEmail(SafeEmail(emailAddress)) == SafeEmail(emailAddress)
  {
    SafeEmailFixesKeys(SafeEmail(emailAddress));
  }

  /** Two different addresses can share a key: the derivation is not injective. */
  lemma SafeEmailNotInjective()
    ensures "a.b@c" != "a@b.c"
    ensures SafeEmail("a.b@c") == SafeEmail("a@b.c") == "a-b-c"
  {
    var k1, k2 := SafeEmail("a.b@c"), SafeEmail("a@b.c");
    assert "a.b@c"[1] != "a@b.c"[1];
    assert k1[0] == 'a' && k1[1] == '-' && k1[2] == 'b' && k1[3] == '-' && k1[4] == 'c';
    assert k2[0] == 'a' && k2[1] == '-' && k2[2] == 'b' && k2[3] == '-' && k2[4] == 'c';
  }

  /** The user record handed to `insertUser`. */
  datatype ChatAppUser = ChatAppUser(firstName: string, lastName: string, emailAddress: string) {

    /** The user's storage key; the same derivation as `SafeEmail`. */
    function Key(): (key: string)
      ensures key == SafeEmail(emailAddress)
    {
      var dotless := Replace(emailAddress, '.', '-');
      Replace(dotless, '@', '-')
    }
  }
}
