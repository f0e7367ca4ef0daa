/** `content.split(find).join(replace)` for a non-empty `find`: every
    occurrence, scanning left to right without overlap, is replaced. */
module TextReplace {
  import opened Common

  /** `s.split(f)` for a non-empty separator. */
  function Split(s: string, f: string): (parts: seq<string>)
    requires f != []
    ensures |parts| >= 1
    decreases |s|
  {
    if |s| < |f| then [s]
    else if s[..|f|] == f then [""] + Split(s[|f|..], f)
    else
      var rest := Split(s[1..], f);
      [[s[0]] + rest[0]] + rest[1..]
  }

  /** The replacement read as one left-to-right scan. */
  function ReplaceAll(s: string, f: string, r: string): string
    requires f != []
    decreases |s|
  {
    if |s| < |f| then s
    else if s[..|f|] == f then r + ReplaceAll(s[|f|..], f, r)
    else [s[0]] + ReplaceAll(s[1..], f, r)
  }

  lemma JoinCons(p: string, rest: seq<string>, sep: string)
    requires rest != []
    ensures Join([p] + rest, sep) == p + sep + Join(rest, sep)
  {
    assert ([p] + rest)[1..] == rest;
  }

  lemma JoinHeadExtend(c: char, rest: seq<string>, sep: string)
    requires rest != []
    ensures Join([[c] + rest[0]] + rest[1..], sep) == [c] + Join(rest, sep)
  {
    if |rest| > 1 {
      JoinCons([c] + rest[0], rest[1..], sep);
      JoinCons(rest[0], rest[1..], sep);
    }
  }

  /** Splitting on `f` and joining with `r` is the left-to-right scan. */
  lemma {:induction false} SplitJoinIsReplaceAll(s: string, f: string, r: string)
    requires f != []
    ensures Join(Split(s, f), r) == ReplaceAll(s, f, r)
    decreases |s|
  {
    if |s| < |f| {
      assert Split(s, f) == [s];
    } else if s[..|f|] == f {
      var rest := Split(s[|f|..], f);
      assert Split(s, f) == [""] + rest;
      SplitJoinIsReplaceAll(s[|f|..], f, r);
      JoinCons("", rest, r);
      assert "" + r + Join(rest, r) == r + ReplaceAll(s[|f|..], f, r);
    } else {
      var rest := Split(s[1..], f);
      assert Split(s, f) == [[s[0]] + rest[0]] + rest[1..];
      SplitJoinIsReplaceAll(s[1..], f, r);
      JoinHeadExtend(s[0], rest, r);
      assert ReplaceAll(s, f, r) == [s[0]] + ReplaceAll(s[1..], f, r);
    }
  }

  /** Joining the pieces back with the separator gives the original text. */
  lemma {:induction false} SplitJoinRoundTrip(s: string, f: string)
    requires f != []
    ensures Join(Split(s, f), f) == s
    decreases |s|
  {
    if |s| < |f| {
      assert Split(s, f) == [s];
    } else if s[..|f|] == f {
      var rest := Split(s[|f|..], f);
      assert Split(s, f) == [""] + rest;
      SplitJoinRoundTrip(s[|f|..], f);
      JoinCons("", rest, f);
      assert "" + f + Join(rest, f) == f + s[|f|..];
      assert s == f + s[|f|..];
    } else {
      var rest := Split(s[1..], f);
      assert Split(s, f) == [[s[0]] + rest[0]] + rest[1..];
      SplitJoinRoundTrip(s[1..], f);
      JoinHeadExtend(s[0], rest, f);
      assert s == [s[0]] + s[1..];
    }
  }

  /** Text that does not contain `f` comes back unchanged. */
  lemma {:induction false} ReplaceAbsent(s: string, f: string, r: string)
    requires f != [] && !Contains(s, f)
    ensures ReplaceAll(s, f, r) == s
    decreases |s|
  {
    if |s| >= |f| {
      ReplaceAbsent(s[1..], f, r);
      assert s == [s[0]] + s[1..];
    }
  }

  /** Replacing `f` by itself changes nothing. */
  lemma ReplaceBySelf(s: string, f: string)
    requires f != []
    ensures ReplaceAll(s, f, f) == s
  {
    SplitJoinIsReplaceAll(s, f, f);
    SplitJoinRoundTrip(s, f);
  }

  /** When the replacement is shorter than `f`, text containing `f` gets
      strictly shorter; in particular `includes` really triggers a change. */
  lemma {:induction false} ReplaceShrinks(s: string, f: string, r: string)
    requires f != [] && |r| < |f| && Contains(s, f)
    ensures |ReplaceAll(s, f, r)| < |s|
    decreases |s|
  {
    ContainsIsLonger(s, f);
    if s[..|f|] == f {
      ReplaceNoLonger(s[|f|..], f, r);
    } else {
      ReplaceShrinks(s[1..], f, r);
    }
  }

  lemma ContainsIsLonger(s: string, f: string)
    requires Contains(s, f)
    ensures |f| <= |s|
  {
  }

  lemma {:induction false} ReplaceNoLonger(s: string, f: string, r: string)
    requires f != [] && |r| <= |f|
    ensures |ReplaceAll(s, f, r)| <= |s|
    decreases |s|
  {
    if |s| >= |f| {
      if s[..|f|] == f {
        ReplaceNoLonger(s[|f|..], f, r);
      } else {
        ReplaceNoLonger(s[1..], f, r);
      }
    }
  }
}
