/**
 * The username validator of the user schema. JavaScript measures a string
 * in UTF-16 code units, so a character outside the Basic Multilingual Plane
 * counts twice towards the limits.
 */
module UserModel {

  /** Code units JavaScript's `length` reports for one character. */
  function CodeUnits(c: char): (n: nat)
    ensures 1 <= n <= 2
    ensures n == 1 <==> (c as int) < 0x10000
  {
    if (c as int) < 0x10000 then 1 else 2
  }

  /** JavaScript's `length` of a string: its number of UTF-16 code units. */
  function Utf16Length(s: string): (n: nat)
    ensures |s| <= n <= 2 * |s|
  {
    if s == [] then 0 else CodeUnits(s[0]) + Utf16Length(s[1..])
  }

  /** For a string of Basic Multilingual Plane characters the length is the character count. */
  lemma {:induction false} Utf16LengthOfBmp(s: string)
    requires forall i :: 0 <= i < |s| ==> (s[i] as int) < 0x10000
    ensures Utf16Length(s) == |s|
  {
    if s != [] {
      assert forall i :: 0 <= i < |s[1..]| ==> s[1..][i] == s[i + 1];
      Utf16LengthOfBmp(s[1..]);
    }
  }

  /** A string with a character outside the Basic Multilingual Plane is longer than its character count. */
  lemma {:induction false} Utf16LengthOfAstral(s: string, k: nat)
    requires k < |s| && 0x10000 <= (s[k] as int)
    ensures |s| < Utf16Length(s)
  {
    if k > 0 {
      Utf16LengthOfAstral(s[1..], k - 1);
    }
  }

  /** validateUsername: the length is above 4 and below 30. */
  function ValidateUsername(username: string): (ok: bool)
    ensures ok <==> 5 <= Utf16Length(username) <= 29
  {
    Utf16Length(username) < 30 && Utf16Length(username) > 4
  }

  /** The lengths just outside the range, and the empty name, are rejected. */
  lemma ValidateUsernameRejectsBoundaries(username: string)
    ensures Utf16Length(username) == 4 ==> !ValidateUsername(username)
    ensures Utf16Length(username) == 30 ==> !ValidateUsername(username)
    ensures !ValidateUsername("")
  {
  }

  /** The lengths just inside the range are accepted. */
  lemma ValidateUsernameAcceptsBoundaries(username: string)
    ensures Utf16Length(username) == 5 ==> ValidateUsername(username)
    ensures Utf16Length(username) == 29 ==> ValidateUsername(username)
  {
  }

  /** The answer depends on the length alone. */
  lemma ValidateUsernameDependsOnLengthOnly(a: string, b: string)
    requires Utf16Length(a) == Utf16Length(b)
    ensures ValidateUsername(a) == ValidateUsername(b)
  {
  }

  /** For Basic Multilingual Plane names the bounds are on the character count: 5 to 29. */
  lemma ValidateUsernameOfBmp(username: string)
    requires forall i :: 0 <= i < |username| ==> (username[i] as int) < 0x10000
    ensures ValidateUsername(username) <==> 5 <= |username| <= 29
  {
    Utf16LengthOfBmp(username);
  }

  /** Three emoji are six code units long, so they pass although they are three characters. */
  lemma ValidateUsernameCountsCodeUnits()
    ensures ValidateUsername("\U{1F600}\U{1F600}\U{1F600}")
    ensures !ValidateUsername("\U{1F600}\U{1F600}")
  {
  }
}
