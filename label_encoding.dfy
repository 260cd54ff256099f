/**
 * A fitted `LabelEncoder` (production_tracker.py:156-162): its classes are the
 * distinct values of the fitting column in Python's sorted order, and a value's
 * code is its index among them.
 */
module LabelEncoding {
  import opened Wrappers
  import opened Text

  /** The `classes_` of a fitted encoder. */
  type Classes = seq<string>

  predicate StrictlySorted(cls: Classes) {
    forall i, j :: 0 <= i < j < |cls| ==> Less(cls[i], cls[j])
  }

  /** `cls` is what fitting on `column` produces: sorted, duplicate-free, and exactly the column's values. */
  ghost predicate IsClassesOf(cls: Classes, column: seq<string>) {
    && StrictlySorted(cls)
    && (forall x :: x in cls <==> x in column)
  }

  /** Adds `x` to sorted classes at its place, unless it is already among them. */
  function Insert(cls: Classes, x: string): (r: Classes)
    requires StrictlySorted(cls)
    ensures StrictlySorted(r)
    ensures forall y :: y in r <==> y in cls || y == x
  {
    if cls == [] then [x]
    else if x == cls[0] then cls
    else if Less(x, cls[0]) then
      assert forall k :: 1 <= k < |cls| ==> Less(x, cls[k]) by {
        forall k | 1 <= k < |cls| ensures Less(x, cls[k]) { LessTransitive(x, cls[0], cls[k]); }
      }
      [x] + cls
    else
      LessTotal(x, cls[0]);
      var rest := Insert(cls[1..], x);
      assert forall y :: y in rest ==> Less(cls[0], y) by {
        forall y | y in rest ensures Less(cls[0], y) {
          if y != x {
            var k := Code(cls[1..], y);
            assert cls[1..][k] == cls[k + 1];
          }
        }
      }
      assert forall k :: 0 <= k < |rest| ==> Less(cls[0], rest[k]) by {
        forall k | 0 <= k < |rest| ensures Less(cls[0], rest[k]) { assert rest[k] in rest; }
      }
      [cls[0]] + rest
  }

  /** `LabelEncoder.fit(column)`: the sorted distinct values of the column. */
  function Fit(column: seq<string>): (cls: Classes)
    ensures IsClassesOf(cls, column)
  {
    if column == [] then []
    else
      var front := column[..|column| - 1];
      assert forall x :: x in column <==> x in front || x == column[|column| - 1] by {
        assert column == front + [column[|column| - 1]];
      }
      Insert(Fit(front), column[|column| - 1])
  }

  /** Sorted duplicate-free sequences holding the same values are equal. */
  lemma {:induction false} SortedClassesUnique(a: Classes, b: Classes)
    requires StrictlySorted(a) && StrictlySorted(b)
    requires forall x :: x in a <==> x in b
    ensures a == b
    decreases |a|
  {
    if a != [] {
      assert a[0] in b;
      var k := Code(b, a[0]);
      var m := Code(a, b[0]);
      if k != 0 && m != 0 {
        LessTransitive(a[0], b[0], a[0]);
        LessIrreflexive(a[0]);
      }
      assert a[0] == b[0];
      forall x | x in a[1..] ensures x in b[1..] {
        var i := Code(a[1..], x) + 1;
        assert a[i] == x;
        LessIrreflexive(a[0]);
        assert x in b && x != b[0];
      }
      forall x | x in b[1..] ensures x in a[1..] {
        var i := Code(b[1..], x) + 1;
        assert b[i] == x;
        LessIrreflexive(b[0]);
        assert x in a && x != a[0];
      }
      SortedClassesUnique(a[1..], b[1..]);
      assert a == [a[0]] + a[1..] && b == [b[0]] + b[1..];
    } else if b != [] {
      HeadIsMember(b);
      assert false;
    }
  }

  lemma HeadIsMember(s: seq<string>)
    requires s != []
    ensures s[0] in s
  {
  }

  /**
   * Fitting depends only on which values occur: refitting on the same column,
   * or on any column with the same values, gives the same classes and so the same codes.
   */
  lemma FitDeterministic(c1: seq<string>, c2: seq<string>)
    requires forall x :: x in c1 <==> x in c2
    ensures Fit(c1) == Fit(c2)
  {
    SortedClassesUnique(Fit(c1), Fit(c2));
  }

  /** `transform([x])[0]`: the index of `x` among the classes, or `None` for the `ValueError` on an unseen value. */
  function Encode(cls: Classes, x: string): (r: Option<nat>)
    ensures r.Some? <==> x in cls
    ensures r.Some? ==> r.value < |cls| && cls[r.value] == x
  {
    if cls == [] then None
    else if cls[0] == x then Some(0)
    else match Encode(cls[1..], x)
      case Some(i) => Some(i + 1)
      case None => None
  }

  /** The code of a value known to be among the classes. */
  function Code(cls: Classes, x: string): (i: nat)
    requires x in cls
    ensures i < |cls| && cls[i] == x
  {
    Encode(cls, x).value
  }

  /** `inverse_transform([i])[0]`: the class at index `i`, or `None` for an out-of-range code. */
  function Decode(cls: Classes, i: nat): (r: Option<string>)
    ensures r.Some? <==> i < |cls|
  {
    if i < |cls| then Some(cls[i]) else None
  }

  /** Decoding the code of a known value gives the value back. */
  lemma DecodeEncode(cls: Classes, x: string)
    requires x in cls
    ensures Encode(cls, x).Some? && Decode(cls, Encode(cls, x).value) == Some(x)
  {
  }

  /** On fitted classes every code in `[0, k)` belongs to exactly one value: encoding a decoded code gives it back. */
  lemma {:induction false} EncodeDecode(cls: Classes, i: nat)
    requires StrictlySorted(cls)
    requires i < |cls|
    ensures Encode(cls, cls[i]) == Some(i)
    decreases i
  {
    if i > 0 {
      assert cls[0] != cls[i] by { LessIrreflexive(cls[0]); }
      assert StrictlySorted(cls[1..]);
      EncodeDecode(cls[1..], i - 1);
    }
  }

  /** `fit_transform(column)`: the code of every entry of the column, in column order. */
  function FitTransform(column: seq<string>): (codes: seq<nat>)
    ensures |codes| == |column|
    ensures forall i :: 0 <= i < |column| ==> codes[i] < |Fit(column)| && Fit(column)[codes[i]] == column[i]
  {
    var cls := Fit(column);
    seq(|column|, i requires 0 <= i < |column| => Code(cls, column[i]))
  }

  /** Every history code is the position of its value in the sorted class list, and nothing else is. */
  lemma FitTransformIsSortedIndex(column: seq<string>, i: nat, k: nat)
    requires i < |column| && k < |Fit(column)|
    ensures FitTransform(column)[i] == k <==> Fit(column)[k] == column[i]
  {
    var cls := Fit(column);
    if cls[k] == column[i] {
      EncodeDecode(cls, k);
    }
  }
}
