/**
 * `classNames(...classes)` of `lib/utils.ts`: keeps the truthy arguments
 * (`filter(Boolean)`) and joins them with single spaces (`join(" ")`).
 * An argument is a string, `false` or `undefined`; a string is truthy when
 * it is not empty.
 */
module ClassNames {
  import opened Common

  /** One argument: `string | false | undefined`. */
  datatype ClassArg = Str(s: string) | False | Undefined

  /** `Boolean(arg)`. */
  predicate Kept(a: ClassArg) {
    a.Str? && Truthy(a.s)
  }

  /** `classes.filter(Boolean)`, as the strings it keeps. */
  function Filter(args: seq<ClassArg>): (kept: seq<string>)
    ensures |kept| <= |args|
    ensures forall k :: 0 <= k < |kept| ==> kept[k] != ""
  {
    if |args| == 0 then []
    else (if Kept(args[0]) then [args[0].s] else []) + Filter(args[1..])
  }

  /** `parts.join(sep)`: the parts with one separator between neighbours. */
  function Join(parts: seq<string>, sep: char): string {
    if |parts| == 0 then ""
    else if |parts| == 1 then parts[0]
    else parts[0] + [sep] + Join(parts[1..], sep)
  }

  /** `s.split(sep)` for a one-character separator; `"".split(sep)` is `[""]`. */
  function Split(s: string, sep: char): (parts: seq<string>)
    ensures |parts| >= 1
  {
    if |s| == 0 then [""]
    else
      var rest := Split(s[1..], sep);
      if s[0] == sep then [""] + rest else [[s[0]] + rest[0]] + rest[1..]
  }

  /** `classNames`: the empty string exactly when no argument is truthy. */
  function ClassNames(args: seq<ClassArg>): (r: string)
    ensures r == "" <==> forall i :: 0 <= i < |args| ==> !Kept(args[i])
  {
    FilterEmptyIffNothingKept(args);
    JoinEmptyIffNoParts(Filter(args), ' ');
    Join(Filter(args), ' ')
  }

  /**
   * `filter` keeps exactly the truthy arguments, in their original order:
   * `idx` lists the positions it kept, strictly increasing, and every truthy
   * position is among them.
   */
  lemma {:induction false} FilterIsOrderedSelection(args: seq<ClassArg>) returns (idx: seq<nat>)
    ensures |idx| == |Filter(args)|
    ensures forall k :: 0 <= k < |idx| ==> idx[k] < |args| && args[idx[k]] == Str(Filter(args)[k])
    ensures forall k, l :: 0 <= k < l < |idx| ==> idx[k] < idx[l]
    ensures forall i :: 0 <= i < |args| && Kept(args[i]) ==> i in idx
  {
    if |args| == 0 {
      idx := [];
    } else {
      var tail := FilterIsOrderedSelection(args[1..]);
      var shifted := ShiftSelection(args, tail);
      var rest := Filter(args[1..]);
      if Kept(args[0]) {
        assert Filter(args) == [args[0].s] + rest;
        idx := PrependHead(args, rest, shifted);
      } else {
        assert Filter(args) == rest;
        idx := shifted;
      }
    }
  }

  /** The step of `FilterIsOrderedSelection` when the first argument is kept. */
  lemma PrependHead(args: seq<ClassArg>, rest: seq<string>, shifted: seq<nat>) returns (idx: seq<nat>)
    requires |args| > 0 && Kept(args[0])
    requires |shifted| == |rest|
    requires forall k :: 0 <= k < |shifted| ==> 1 <= shifted[k] < |args| && args[shifted[k]] == Str(rest[k])
    requires forall k, l :: 0 <= k < l < |shifted| ==> shifted[k] < shifted[l]
    requires forall i :: 1 <= i < |args| && Kept(args[i]) ==> i in shifted
    ensures |idx| == |[args[0].s] + rest|
    ensures forall k :: 0 <= k < |idx| ==> idx[k] < |args| && args[idx[k]] == Str(([args[0].s] + rest)[k])
    ensures forall k, l :: 0 <= k < l < |idx| ==> idx[k] < idx[l]
    ensures forall i :: 0 <= i < |args| && Kept(args[i]) ==> i in idx
  {
    idx := [0] + shifted;
    var kept := [args[0].s] + rest;
    forall k | 0 <= k < |idx|
      ensures idx[k] < |args| && args[idx[k]] == Str(kept[k])
    {
      if k > 0 {
        assert idx[k] == shifted[k - 1] && kept[k] == rest[k - 1];
      }
    }
    forall k, l | 0 <= k < l < |idx|
      ensures idx[k] < idx[l]
    {
      if k > 0 {
        assert idx[k] == shifted[k - 1] && idx[l] == shifted[l - 1];
      } else {
        assert idx[l] == shifted[l - 1];
      }
    }
  }

  /**
   * Moves a selection of positions of `args[1..]` to positions of `args`;
   * the helper step of `FilterIsOrderedSelection`.
   */
  lemma ShiftSelection(args: seq<ClassArg>, tail: seq<nat>) returns (shifted: seq<nat>)
    requires |args| > 0
    requires |tail| == |Filter(args[1..])|
    requires forall k :: 0 <= k < |tail| ==> tail[k] < |args| - 1 && args[1..][tail[k]] == Str(Filter(args[1..])[k])
    requires forall k, l :: 0 <= k < l < |tail| ==> tail[k] < tail[l]
    requires forall i :: 0 <= i < |args| - 1 && Kept(args[1..][i]) ==> i in tail
    ensures |shifted| == |tail|
    ensures forall k :: 0 <= k < |shifted| ==> 1 <= shifted[k] < |args| && args[shifted[k]] == Str(Filter(args[1..])[k])
    ensures forall k, l :: 0 <= k < l < |shifted| ==> shifted[k] < shifted[l]
    ensures forall i :: 1 <= i < |args| && Kept(args[i]) ==> i in shifted
  {
    shifted := seq(|tail|, k requires 0 <= k < |tail| => tail[k] + 1);
    forall k | 0 <= k < |shifted|
      ensures args[shifted[k]] == Str(Filter(args[1..])[k])
    {
      assert args[shifted[k]] == args[1..][tail[k]];
    }
    forall i | 1 <= i < |args| && Kept(args[i])
      ensures i in shifted
    {
      assert args[1..][i - 1] == args[i];
      var k :| 0 <= k < |tail| && tail[k] == i - 1;
      assert shifted[k] == i;
    }
  }

  /** Filtering distributes over concatenation, so kept arguments keep their relative order. */
  lemma {:induction false} FilterAppend(xs: seq<ClassArg>, ys: seq<ClassArg>)
    ensures Filter(xs + ys) == Filter(xs) + Filter(ys)
  {
    if |xs| > 0 {
      assert (xs + ys)[1..] == xs[1..] + ys;
      FilterAppend(xs[1..], ys);
    } else {
      assert xs + ys == ys;
    }
  }

  /** Joining non-empty parts gives "" exactly when there are no parts. */
  lemma {:induction false} JoinEmptyIffNoParts(parts: seq<string>, sep: char)
    requires forall k :: 0 <= k < |parts| ==> parts[k] != ""
    ensures Join(parts, sep) == "" <==> |parts| == 0
  {
  }

  /** `filter(Boolean)` keeps nothing exactly when no argument is truthy, which includes having no arguments. */
  lemma {:induction false} FilterEmptyIffNothingKept(args: seq<ClassArg>)
    ensures Filter(args) == [] <==> forall i :: 0 <= i < |args| ==> !Kept(args[i])
  {
    if |args| > 0 {
      FilterEmptyIffNothingKept(args[1..]);
      assert forall i :: 1 <= i < |args| ==> args[i] == args[1..][i - 1];
    }
  }

  /** Splitting a part that holds no separator returns just that part. */
  lemma {:induction false} SplitWithoutSep(a: string, sep: char)
    requires sep !in a
    ensures Split(a, sep) == [a]
  {
    if |a| > 0 {
      SplitWithoutSep(a[1..], sep);
      assert [a[0]] + a[1..] == a;
    }
  }

  /** Splitting `a + sep + b` cuts at the first separator when `a` holds none. */
  lemma {:induction false} SplitAtFirstSep(a: string, b: string, sep: char)
    requires sep !in a
    ensures Split(a + [sep] + b, sep) == [a] + Split(b, sep)
  {
    if |a| == 0 {
      assert a + [sep] + b == [sep] + b;
      assert ([sep] + b)[1..] == b;
    } else {
      SplitAtFirstSep(a[1..], b, sep);
      assert (a + [sep] + b)[1..] == a[1..] + [sep] + b;
      assert [a[0]] + a[1..] == a;
    }
  }

  /** `split` inverts `join` on a non-empty list of parts that hold no separator. */
  lemma {:induction false} SplitJoin(parts: seq<string>, sep: char)
    requires |parts| > 0
    requires forall k :: 0 <= k < |parts| ==> sep !in parts[k]
    ensures Split(Join(parts, sep), sep) == parts
  {
    if |parts| == 1 {
      SplitWithoutSep(parts[0], sep);
    } else {
      SplitJoin(parts[1..], sep);
      SplitAtFirstSep(parts[0], Join(parts[1..], sep), sep);
    }
  }

  /**
   * The output splits back on single spaces into exactly the truthy
   * arguments, in order, whenever there is one and none holds a space.
   */
  lemma ClassNamesSplitsBack(args: seq<ClassArg>)
    requires exists i :: 0 <= i < |args| && Kept(args[i])
    requires forall i :: 0 <= i < |args| && args[i].Str? ==> ' ' !in args[i].s
    ensures Split(ClassNames(args), ' ') == Filter(args)
  {
    var kept := Filter(args);
    JoinEmptyIffNoParts(kept, ' ');
    var idx := FilterIsOrderedSelection(args);
    forall k | 0 <= k < |kept|
      ensures ' ' !in kept[k]
    {
      assert args[idx[k]] == Str(kept[k]);
    }
    SplitJoin(kept, ' ');
  }

  /** Passing the output back in as the only argument changes nothing. */
  lemma ClassNamesIdempotent(args: seq<ClassArg>)
    ensures ClassNames([Str(ClassNames(args))]) == ClassNames(args)
  {
  }
}
