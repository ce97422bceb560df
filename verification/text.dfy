/** Strings as the two runtimes see them: whitespace stripping (JavaScript's
    `String.prototype.trim`, Python's `str.strip`) and an optional value. */
module Text {

  datatype Option<+T> = None | Some(value: T)

  /** Whose notion of whitespace a trim uses. */
  datatype Runtime = JavaScript | Python

  /** Characters JavaScript's `trim` removes (WhiteSpace and LineTerminator) and
      characters for which Python's `str.isspace` holds (what `strip()` removes). */
  predicate IsSpace(c: char, rt: Runtime)
  {
    || ('\t' <= c <= '\r')                      // tab, line feed, vertical tab, form feed, carriage return
    || c == ' ' || c == '\U{A0}' || c == '\U{1680}'
    || ('\U{2000}' <= c <= '\U{200A}')
    || c == '\U{2028}' || c == '\U{2029}' || c == '\U{202F}' || c == '\U{205F}' || c == '\U{3000}'
    || (rt == JavaScript && c == '\U{FEFF}')     // byte order mark
    || (rt == Python && ('\U{1C}' <= c <= '\U{1F}' || c == '\U{85}'))  // separators and next-line
  }

  /** Every character of `s` is whitespace. */
  predicate Blank(s: string, rt: Runtime)
  {
    forall i :: 0 <= i < |s| ==> IsSpace(s[i], rt)
  }

  /** Drops leading whitespace: the result is a suffix of `s` that does not
      start with whitespace (TrimStartDrops: what is dropped is blank). */
  function TrimStart(s: string, rt: Runtime): (r: string)
    ensures |r| <= |s| && r == s[|s| - |r|..]
    ensures r != [] ==> !IsSpace(r[0], rt)
    decreases |s|
  {
    if s != [] && IsSpace(s[0], rt) then
      var r := TrimStart(s[1..], rt);
      assert s[1..][|s| - 1 - |r|..] == s[|s| - |r|..];
      r
    else s
  }

  /** Drops trailing whitespace: the result is a prefix of `s` that does not
      end with whitespace (TrimEndDrops: what is dropped is blank). */
  function TrimEnd(s: string, rt: Runtime): (r: string)
    ensures |r| <= |s| && r == s[..|r|]
    ensures r != [] ==> !IsSpace(r[|r| - 1], rt)
    decreases |s|
  {
    if s != [] && IsSpace(s[|s| - 1], rt) then
      var r := TrimEnd(s[..|s| - 1], rt);
      assert s[..|s| - 1][..|r|] == s[..|r|];
      r
    else s
  }

  /** The leading characters `TrimStart` drops are all whitespace. */
  lemma {:induction false} TrimStartDrops(s: string, rt: Runtime)
    ensures Blank(s[..|s| - |TrimStart(s, rt)|], rt)
  {
    if s != [] && IsSpace(s[0], rt) {
      var p := s[1..];
      TrimStartDrops(p, rt);
      var k := |TrimStart(p, rt)|;
      var head := s[..|s| - k];
      forall i | 0 <= i < |head|
        ensures IsSpace(head[i], rt)
      {
        if i > 0 {
          assert head[i] == p[..|p| - k][i - 1];
        }
      }
    }
  }

  /** The trailing characters `TrimEnd` drops are all whitespace. */
  lemma {:induction false} TrimEndDrops(s: string, rt: Runtime)
    ensures Blank(s[|TrimEnd(s, rt)|..], rt)
  {
    if s != [] && IsSpace(s[|s| - 1], rt) {
      var p := s[..|s| - 1];
      TrimEndDrops(p, rt);
      var k := |TrimEnd(p, rt)|;
      var tail := s[k..];
      forall i | 0 <= i < |tail|
        ensures IsSpace(tail[i], rt)
      {
        if i < |p| - k {
          assert tail[i] == p[k..][i];
        }
      }
    }
  }

  /** Both ends stripped: the result has no whitespace at either end, and it
      is empty exactly when `s` is blank (TrimIsSlice: it is what is left of
      `s` between a blank prefix and a blank suffix). */
  function Trim(s: string, rt: Runtime): (r: string)
    ensures |r| <= |s|
    ensures r != [] ==> !IsSpace(r[0], rt) && !IsSpace(r[|r| - 1], rt)
    ensures r == [] <==> Blank(s, rt)
  {
    var t := TrimStart(s, rt);
    TrimStartDrops(s, rt);
    TrimEndDrops(t, rt);
    BlankJoin(s, |s| - |t|, rt);
    TrimEnd(t, rt)
  }

  lemma TrimIsSlice(s: string, rt: Runtime)
    ensures exists i, j {:trigger s[i..j]} :: 0 <= i <= j <= |s| && Trim(s, rt) == s[i..j]
                                                && Blank(s[..i], rt) && Blank(s[j..], rt)
  {
    var t := TrimStart(s, rt);
    var r := TrimEnd(t, rt);
    TrimStartDrops(s, rt);
    TrimEndDrops(t, rt);
    var i := |s| - |t|;
    var j := i + |r|;
    assert t == s[i..];
    assert r == s[i..j];
    assert s[j..] == t[|r|..];
  }

  /** A string is blank when a blank prefix is followed by a blank suffix. */
  lemma BlankJoin(s: string, k: nat, rt: Runtime)
    requires k <= |s|
    ensures Blank(s, rt) <==> Blank(s[..k], rt) && Blank(s[k..], rt)
  {
    if Blank(s[..k], rt) && Blank(s[k..], rt) {
      forall i | 0 <= i < |s| ensures IsSpace(s[i], rt) {
        if i >= k { assert s[i] == s[k..][i - k]; }
        else { assert s[i] == s[..k][i]; }
      }
    }
  }

  /** Trimming leaves a string alone when neither end is whitespace. */
  lemma TrimKeeps(s: string, rt: Runtime)
    requires s != [] && !IsSpace(s[0], rt) && !IsSpace(s[|s| - 1], rt)
    ensures Trim(s, rt) == s
  {
    assert TrimStart(s, rt) == s;
    assert TrimEnd(s, rt) == s;
  }
}
