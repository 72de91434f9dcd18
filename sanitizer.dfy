/** The storage name the upload storage gives each file: a unique prefix and
    the client's file name with every character outside `[a-zA-Z0-9.\-_]`
    (ASCII letters, digits, `.`, `-` and `_`) removed. */
module Sanitizer {
  import opened Decimal

  /** The characters the filter `/[^a-zA-Z0-9.\-_]/g` leaves in place. */
  predicate Allowed(c: char) {
    || 'a' <= c <= 'z'
    || 'A' <= c <= 'Z'
    || '0' <= c <= '9'
    || c == '.' || c == '-' || c == '_'
  }

  predicate AllAllowed(s: string) {
    forall i :: 0 <= i < |s| ==> Allowed(s[i])
  }

  /** `originalname.replace(/[^a-zA-Z0-9.\-_]/g, '')`: removes every character
      that is not allowed and keeps the others in order. */
  function Sanitize(s: string): (r: string)
    ensures AllAllowed(r)
    ensures |r| <= |s|
  {
    if s == [] then []
    else if Allowed(s[0]) then [s[0]] + Sanitize(s[1..])
    else Sanitize(s[1..])
  }

  /** `a` is obtained from `b` by deleting characters. */
  predicate IsSubsequence(a: string, b: string)
    decreases |b|
  {
    if a == [] then true
    else if b == [] then false
    else if a[0] == b[0] then IsSubsequence(a[1..], b[1..])
    else IsSubsequence(a, b[1..])
  }

  lemma {:induction false} SanitizeIsSubsequence(s: string)
    ensures IsSubsequence(Sanitize(s), s)
  {
    if s != [] {
      SanitizeIsSubsequence(s[1..]);
      if !Allowed(s[0]) {
        DropFrontKeepsSubsequence(Sanitize(s[1..]), s[1..], s[0]);
      }
    }
  }

  lemma {:induction false} DropFrontKeepsSubsequence(a: string, b: string, c: char)
    requires IsSubsequence(a, b)
    ensures IsSubsequence(a, [c] + b)
    decreases |a| + |b|, 1
  {
    assert ([c] + b)[1..] == b;
    if a != [] && a[0] == c {
      SubsequenceTail(a, b);
    }
  }

  lemma {:induction false} SubsequenceTail(a: string, b: string)
    requires a != [] && IsSubsequence(a, b)
    ensures IsSubsequence(a[1..], b)
    decreases |a| + |b|, 0
  {
    assert [b[0]] + b[1..] == b;
    if a[0] != b[0] {
      SubsequenceTail(a, b[1..]);
    }
    DropFrontKeepsSubsequence(a[1..], b[1..], b[0]);
  }

  /** Each allowed character occurs in the result exactly as often as in the
      input, and no other character occurs: with the subsequence property this
      says the result is the allowed characters of the input in their order. */
  lemma {:induction false} SanitizeKeepsExactlyAllowed(s: string, c: char)
    ensures multiset(Sanitize(s))[c] == if Allowed(c) then multiset(s)[c] else 0
  {
    if s != [] {
      SanitizeKeepsExactlyAllowed(s[1..], c);
      assert s == [s[0]] + s[1..];
    }
  }

  /** A name made only of allowed characters passes through unchanged. */
  lemma {:induction false} SanitizeAllowedIsIdentity(s: string)
    requires AllAllowed(s)
    ensures Sanitize(s) == s
  {
    if s != [] {
      SanitizeAllowedIsIdentity(s[1..]);
      assert [s[0]] + s[1..] == s;
    }
  }

  /** Sanitizing twice is the same as sanitizing once. */
  lemma SanitizeIdempotent(s: string)
    ensures Sanitize(Sanitize(s)) == Sanitize(s)
  {
    SanitizeAllowedIsIdentity(Sanitize(s));
  }

  /** The filter leaves a name unchanged exactly when every character is allowed. */
  lemma SanitizeFixedPoint(s: string)
    ensures Sanitize(s) == s <==> AllAllowed(s)
  {
    if AllAllowed(s) {
      SanitizeAllowedIsIdentity(s);
    }
  }

  /** The filter works character by character, so it distributes over concatenation. */
  lemma {:induction false} SanitizeConcat(a: string, b: string)
    ensures Sanitize(a + b) == Sanitize(a) + Sanitize(b)
  {
    if a != [] {
      assert (a + b)[1..] == a[1..] + b;
      SanitizeConcat(a[1..], b);
    } else {
      assert a + b == b;
    }
  }

  /** The storage name `Date.now() + '-' + Math.round(Math.random() * 1E9) +
      '-' + sanitized`: the clock reading and the random number are parameters. */
  function StorageName(now: nat, random: nat, originalName: string): (name: string)
    ensures AllAllowed(name)
    ensures |name| >= |Sanitize(originalName)| + 4
    ensures name[|name| - |Sanitize(originalName)|..] == Sanitize(originalName)
  {
    var prefix := NatToString(now) + "-" + NatToString(random) + "-";
    assert AllAllowed(prefix) by {
      forall i | 0 <= i < |prefix| ensures Allowed(prefix[i]) {
        if i < |NatToString(now)| {
          assert prefix[i] == NatToString(now)[i];
        } else if i > |NatToString(now)| && i < |prefix| - 1 {
          assert prefix[i] == NatToString(random)[i - |NatToString(now)| - 1];
        }
      }
    }
    prefix + Sanitize(originalName)
  }
}
