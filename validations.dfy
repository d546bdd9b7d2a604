/** Presence checks and identifier syntax shared by every client operation
    (validations.go). */
module Validations {
  import opened Wrappers
  import opened MiscTypes

  /** The character class of the identifier pattern: ASCII letters, digits,
      hyphen, period and underscore. */
  predicate IsIdChar(c: char) {
    || 'a' <= c <= 'z'
    || 'A' <= c <= 'Z'
    || '0' <= c <= '9'
    || c == '-' || c == '.' || c == '_'
  }

  /** Reference reading of the identifier pattern: non-empty, and every
      character in the class. */
  predicate IsIdString(s: string) {
    |s| > 0 && forall i :: 0 <= i < |s| ==> IsIdChar(s[i])
  }

  /** The anchored pattern `^[a-zA-Z0-9\-\._]+$` run over s: one character of
      the class, then either the end of the text or one more repetition.
      Go's `$` without the multi-line flag matches only at the end of the
      text, so nothing may follow the last repetition. The matcher accepts
      exactly the non-empty strings over the class. */
  predicate MatchesStringID(s: string)
    ensures MatchesStringID(s) <==> IsIdString(s)
  {
    assert |s| > 1 ==> forall i :: 1 <= i < |s| ==> s[i] == s[1..][i - 1];
    |s| > 0 && IsIdChar(s[0]) && (|s| == 1 || MatchesStringID(s[1..]))
  }

  /** validString: the pointer is non-nil and the string non-empty. */
  predicate ValidString(v: Option<string>)
    ensures ValidString(v) <==> v.Some? && |v.value| > 0
  {
    v.Some? && v.value != ""
  }

  /** validLocation: the pointer is non-nil; coordinates and world are not
      looked at. */
  predicate ValidLocation(l: Option<Location>) {
    l.Some?
  }

  /** validStringID: the pointer is non-nil and the pattern matches, so nil
      and "" fail and every character must be in the class. */
  predicate ValidStringID(v: Option<string>)
    ensures ValidStringID(v) <==> v.Some? && |v.value| > 0
                                  && forall i :: 0 <= i < |v.value| ==> IsIdChar(v.value[i])
  {
    v.Some? && MatchesStringID(v.value)
  }

  /** notNil: the interface value is not nil. Passing the address of a
      field (`Some(field)`) can never be nil. */
  predicate NotNil<T>(v: Option<T>) {
    v.Some?
  }

  /** One character outside the class anywhere rejects the whole string. */
  lemma OneBadCharRejects(s: string, i: int)
    requires 0 <= i < |s| && !IsIdChar(s[i])
    ensures !ValidStringID(Some(s))
  {
  }

  /** Identifiers of the usual shape pass. */
  lemma StringIDsAccepted()
    ensures ValidStringID(Some("shape-01"))
    ensures ValidStringID(Some("a.b_c"))
  {
    assert IsIdString("shape-01");
    assert IsIdString("a.b_c");
  }

  /** Nil and the empty string fail, and a space, a slash, a tilde or a
      trailing newline makes an otherwise good identifier fail. */
  lemma StringIDsRejected()
    ensures !ValidStringID(Some(""))
    ensures !ValidStringID(None)
    ensures !ValidStringID(Some("shape 01"))
    ensures !ValidStringID(Some("shapes/01"))
    ensures !ValidStringID(Some("~shape"))
    ensures !ValidStringID(Some("shape-01\n"))
  {
    OneBadCharRejects("shape 01", 5);
    OneBadCharRejects("shapes/01", 6);
    OneBadCharRejects("~shape", 0);
    OneBadCharRejects("shape-01\n", 8);
  }

  /** Joining two valid identifiers gives a valid identifier. */
  lemma ConcatStringIDs(a: string, b: string)
    requires ValidStringID(Some(a)) && ValidStringID(Some(b))
    ensures ValidStringID(Some(a + b))
  {
    forall i | 0 <= i < |a + b| ensures IsIdChar((a + b)[i]) {
      if i >= |a| {
        assert (a + b)[i] == b[i - |a|];
      }
    }
  }

  /** Every non-empty slice of a valid identifier is a valid identifier. */
  lemma SliceOfStringID(s: string, lo: int, hi: int)
    requires ValidStringID(Some(s))
    requires 0 <= lo < hi <= |s|
    ensures ValidStringID(Some(s[lo..hi]))
  {
    forall i | 0 <= i < hi - lo ensures IsIdChar(s[lo..hi][i]) {
      assert s[lo..hi][i] == s[lo + i];
    }
  }

  /** notNil holds of every field address. */
  lemma NotNilOfAddress<T>(field: T)
    ensures NotNil(Some(field))
  {
  }

  /** A location built by NewLocation always passes validLocation. */
  lemma NewLocationIsValid(x: int, y: int, z: int, world: string)
    ensures ValidLocation(NewLocation(x, y, z, world))
  {
  }
}
