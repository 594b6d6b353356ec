/** Trimming, for any alphabet with its own notion of white space. */
module Strings {

  function TrimStart<T>(s: seq<T>, space: T -> bool): seq<T> {
    if s != [] && space(s[0]) then TrimStart(s[1..], space) else s
  }

  function TrimEnd<T>(s: seq<T>, space: T -> bool): seq<T> {
    if s != [] && space(s[|s| - 1]) then TrimEnd(s[..|s| - 1], space) else s
  }

  function Trim<T>(s: seq<T>, space: T -> bool): seq<T> {
    TrimEnd(TrimStart(s, space), space)
  }

  predicate IsTrimmed<T>(s: seq<T>, space: T -> bool) {
    s != [] ==> !space(s[0]) && !space(s[|s| - 1])
  }

  lemma {:induction false} TrimStartIsSuffix<T>(s: seq<T>, space: T -> bool) returns (i: nat)
    ensures i <= |s| && TrimStart(s, space) == s[i..]
    ensures TrimStart(s, space) != [] ==> !space(TrimStart(s, space)[0])
    ensures forall k :: 0 <= k < i ==> space(s[k])
  {
    if s != [] && space(s[0]) {
      var j := TrimStartIsSuffix(s[1..], space);
      i := j + 1;
      assert forall k :: 1 <= k < i ==> s[k] == s[1..][k - 1];
    } else {
      i := 0;
    }
  }

  lemma {:induction false} TrimEndIsPrefix<T>(s: seq<T>, space: T -> bool) returns (j: nat)
    ensures j <= |s| && TrimEnd(s, space) == s[..j]
    ensures TrimEnd(s, space) != [] ==> !space(TrimEnd(s, space)[|TrimEnd(s, space)| - 1])
    ensures forall k :: j <= k < |s| ==> space(s[k])
  {
    if s != [] && space(s[|s| - 1]) {
      j := TrimEndIsPrefix(s[..|s| - 1], space);
    } else {
      j := |s|;
    }
  }

  /** `trim` removes exactly the white space at the two ends. */
  lemma TrimIsSlice<T>(s: seq<T>, space: T -> bool) returns (i: nat, j: nat)
    ensures i <= j <= |s| && Trim(s, space) == s[i..j]
    ensures IsTrimmed(Trim(s, space), space)
    ensures forall k :: 0 <= k < i || j <= k < |s| ==> space(s[k])
  {
    i := TrimStartIsSuffix(s, space);
    var t := TrimStart(s, space);
    var e := TrimEndIsPrefix(t, space);
    j := i + e;
    assert t[..e] == s[i..j];
    forall k | j <= k < |s| ensures space(s[k]) {
      assert t[k - i] == s[k];
    }
  }

  /** Trimming leaves a string alone exactly when it is trimmed already. */
  lemma TrimKeepsTrimmed<T>(s: seq<T>, space: T -> bool)
    ensures Trim(s, space) == s <==> IsTrimmed(s, space)
    ensures Trim(Trim(s, space), space) == Trim(s, space)
  {
    var i, j := TrimIsSlice(s, space);
    var i2, j2 := TrimIsSlice(Trim(s, space), space);
  }

  /** The part of s from i to j, with white space alone around it. */
  ghost predicate IsCore<T>(s: seq<T>, space: T -> bool, core: seq<T>, i: nat, j: nat) {
    i <= j <= |s| && core == s[i..j] && forall k :: 0 <= k < i || j <= k < |s| ==> space(s[k])
  }

  /** What is left of a string without the white space around it is unique, if its ends are not white space. */
  lemma CoreIsUnique<T>(s: seq<T>, space: T -> bool, a: seq<T>, i: nat, j: nat, b: seq<T>, k: nat, l: nat)
    requires IsCore(s, space, a, i, j) && IsCore(s, space, b, k, l)
    requires a != [] && IsTrimmed(a, space) && IsTrimmed(b, space)
    ensures a == b
  {
    assert s[i] == a[0] && s[j - 1] == a[|a| - 1];
    assert k <= i && j <= l;
    assert s[k] == b[0] && s[l - 1] == b[|b| - 1];
  }

  /** `trim` finds it. */
  lemma TrimIff<T>(s: seq<T>, space: T -> bool, core: seq<T>)
    requires core != []
    ensures Trim(s, space) == core <==> IsTrimmed(core, space) && exists i, j :: IsCore(s, space, core, i, j)
  {
    var i, j := TrimIsSlice(s, space);
    assert IsCore(s, space, Trim(s, space), i, j);
    if IsTrimmed(core, space) && exists k, l :: IsCore(s, space, core, k, l) {
      var k, l :| IsCore(s, space, core, k, l);
      CoreIsUnique(s, space, core, k, l, Trim(s, space), i, j);
    }
  }
}
