/**
 Strings used by the renderer: JavaScript's `Array.prototype.join`, which builds
 an element's class string from a block's class list, and its inverse, a
 splitter that takes the nonempty space-separated runs of a class string.
 */
module Strings {

  /** Sum of the lengths of the parts. */
  function TotalLength(parts: seq<string>): nat
  {
    if |parts| == 0 then 0 else |parts[0]| + TotalLength(parts[1..])
  }

  /** `parts.join(sep)`: the parts in order with one `sep` between neighbours. */
  function Join(parts: seq<string>, sep: string): (r: string)
    ensures |parts| == 0 ==> r == ""
    ensures |parts| == 1 ==> r == parts[0]
    ensures |parts| > 0 ==> |r| == TotalLength(parts) + (|parts| - 1) * |sep|
    ensures |parts| > 0 ==> r[..|parts[0]|] == parts[0]
  {
    if |parts| == 0 then ""
    else if |parts| == 1 then parts[0]
    else parts[0] + sep + Join(parts[1..], sep)
  }

  /** Joining a longer list adds the separator and the new last part at the end. */
  lemma {:induction false} JoinSnoc(parts: seq<string>, last: string, sep: string)
    requires |parts| > 0
    ensures Join(parts + [last], sep) == Join(parts, sep) + sep + last
    decreases |parts|
  {
    if |parts| == 1 {
      assert parts + [last] == [parts[0], last];
      assert (parts + [last])[1..] == [last];
    } else {
      assert (parts + [last])[1..] == parts[1..] + [last];
      JoinSnoc(parts[1..], last, sep);
    }
  }

  /** The class strings the renderer builds: no classes give the empty string,
      one class gives itself, and two classes get one space between them. */
  lemma JoinExamples()
    ensures Join([], " ") == ""
    ensures Join(["bg-red-400"], " ") == "bg-red-400"
    ensures Join(["text-lg", "font-bold"], " ") == "text-lg font-bold"
  {
  }

  /** Joining loses information when a class is empty or holds a space. */
  lemma JoinIsLossy()
    ensures Join(["a b"], " ") == Join(["a", "b"], " ")
    ensures Join([], " ") == Join([""], " ")
  {
  }

  /** `s.split(c)`: the maximal runs of `s` between occurrences of `c`, in order. */
  function Split(s: string, c: char): (r: seq<string>)
    ensures |r| >= 1
    ensures forall i :: 0 <= i < |r| ==> c !in r[i]
    decreases |s|
  {
    if |s| == 0 then [""]
    else
      var rest := Split(s[1..], c);
      if s[0] == c then [""] + rest
      else [[s[0]] + rest[0]] + rest[1..]
  }

  /** A string free of the separator splits into itself. */
  lemma {:induction false} SplitWithoutSeparator(s: string, c: char)
    requires c !in s
    ensures Split(s, c) == [s]
    decreases |s|
  {
    if |s| > 0 {
      assert c !in s[1..] by {
        forall k | 0 <= k < |s[1..]| ensures s[1..][k] != c {
          assert s[1..][k] == s[k + 1];
        }
      }
      SplitWithoutSeparator(s[1..], c);
      assert [s[0]] + s[1..] == s;
    }
  }

  /** Splitting stops at the first separator. */
  lemma {:induction false} SplitAtSeparator(x: string, c: char, rest: string)
    requires c !in x
    ensures Split(x + [c] + rest, c) == [x] + Split(rest, c)
    decreases |x|
  {
    var s := x + [c] + rest;
    if |x| == 0 {
      assert s[1..] == rest;
    } else {
      assert s[1..] == x[1..] + [c] + rest;
      assert c !in x[1..] by {
        forall k | 0 <= k < |x[1..]| ensures x[1..][k] != c {
          assert x[1..][k] == x[k + 1];
        }
      }
      SplitAtSeparator(x[1..], c, rest);
      assert [x[0]] + x[1..] == x;
    }
  }

  /** Splitting on a one-character separator undoes joining with it, as long as
      there is at least one part and no part contains the separator. */
  lemma {:induction false} SplitJoin(parts: seq<string>, c: char)
    requires |parts| > 0
    requires forall i :: 0 <= i < |parts| ==> c !in parts[i]
    ensures Split(Join(parts, [c]), c) == parts
    decreases |parts|
  {
    if |parts| == 1 {
      SplitWithoutSeparator(parts[0], c);
    } else {
      var tail := Join(parts[1..], [c]);
      assert Join(parts, [c]) == parts[0] + [c] + tail;
      SplitAtSeparator(parts[0], c, tail);
      SplitJoin(parts[1..], c);
      assert [parts[0]] + parts[1..] == parts;
    }
  }

  /** A class that survives joining with spaces: nonempty, without a space. */
  predicate ValidClassToken(t: string)
  {
    |t| > 0 && ' ' !in t
  }

  predicate ValidClassList(classes: seq<string>)
  {
    forall i :: 0 <= i < |classes| ==> ValidClassToken(classes[i])
  }

  /** The nonempty strings of `parts`, in order. */
  function NonEmpty(parts: seq<string>): (r: seq<string>)
    ensures |r| <= |parts|
    ensures forall i :: 0 <= i < |r| ==> |r[i]| > 0 && r[i] in parts
    ensures (forall i :: 0 <= i < |parts| ==> |parts[i]| > 0) ==> r == parts
  {
    if |parts| == 0 then []
    else if |parts[0]| == 0 then NonEmpty(parts[1..])
    else [parts[0]] + NonEmpty(parts[1..])
  }

  /** The tokens of a class string: its nonempty runs between spaces (U+0020 only). */
  function ClassTokens(className: string): (r: seq<string>)
    ensures ValidClassList(r)
  {
    NonEmpty(Split(className, ' '))
  }

  /** The class string built by `classList.join(' ')` reads back as the same
      class list whenever every class is nonempty and space-free; this includes
      the empty class list, whose class string is empty. */
  lemma ClassTokensOfJoin(classes: seq<string>)
    requires ValidClassList(classes)
    ensures ClassTokens(Join(classes, " ")) == classes
  {
    if |classes| == 0 {
      assert Split("", ' ') == [""];
    } else {
      SplitJoin(classes, ' ');
    }
  }
}
