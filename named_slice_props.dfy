/** What `NamedIndexes.__getitem__` promises, proved about `NamedSlices.Select`. */
module NamedSliceProps {
  import opened Common
  import opened NamedSlices

  /** `FirstMatch` over the item names is the position of the first item whose
      name matches. */
  lemma {:induction false} FirstMatchAt(items: seq<NamedIndex>, s: string, k: nat)
    requires k < |items| && SameName(items[k].name, s)
    requires forall j :: 0 <= j < k ==> !SameName(items[j].name, s)
    ensures FirstMatch(NameList(items), s) == Some(k)
    ensures StartOf(items, Named(s)) == Ok(Some(k)) && StopOf(items, Named(s)) == Ok(Some(k + 1))
  {
    var m := FirstMatch(NameList(items), s);
    assert NameList(items)[k] == items[k].name;
    assert m.Some?;
  }

  /** An integer index picks the item at that position, counting from the end
      when negative, and raises outside the list. */
  lemma PositionSelects(items: seq<NamedIndex>, i: int)
    ensures Select(items, Position(i)).Ok? <==> -|items| <= i < |items|
    ensures 0 <= i < |items| ==> Select(items, Position(i)) == Ok(Item(items[i]))
    ensures -|items| <= i < 0 ==> Select(items, Position(i)) == Ok(Item(items[|items| + i]))
    ensures !(-|items| <= i < |items|) ==> Select(items, Position(i)) == Err(IndexOutOfRange(i))
  {
  }

  /** A string index picks the first item whose name matches up to ASCII case. */
  lemma KeySelectsFirstMatch(items: seq<NamedIndex>, s: string, k: nat)
    requires k < |items| && SameName(items[k].name, s)
    requires forall j :: 0 <= j < k ==> !SameName(items[j].name, s)
    ensures Select(items, Key(s)) == Ok(Item(items[k]))
  {
    FirstMatchAt(items, s, k);
  }

  /** A string index that matches no name raises, and only then. */
  lemma UnknownKeyRaises(items: seq<NamedIndex>, s: string)
    ensures Select(items, Key(s)) == Err(KeyNotFound(s)) <==>
            forall j :: 0 <= j < |items| ==> !SameName(items[j].name, s)
  {
    var m := FirstMatch(NameList(items), s);
    if m.Some? {
      assert NameList(items)[m.value] == items[m.value].name;
    } else {
      forall j | 0 <= j < |items| ensures !SameName(items[j].name, s) {
        assert NameList(items)[j] == items[j].name;
      }
    }
  }

  /** The start bound is resolved before the stop bound: an unknown start name
      raises whatever the stop bound is. */
  lemma UnknownStartRaises(items: seq<NamedIndex>, a: string, stop: Bound, step: Option<int>)
    requires forall j :: 0 <= j < |items| ==> !SameName(items[j].name, a)
    ensures Select(items, Range(Named(a), stop, step)) == Err(StartNotFound(a))
  {
    assert FirstMatch(NameList(items), a).None? by {
      forall j | 0 <= j < |items| ensures !SameName(NameList(items)[j], a) { }
    }
  }

  /** An unknown stop name raises once the start bound has resolved. */
  lemma UnknownStopRaises(items: seq<NamedIndex>, start: Bound, b: string, step: Option<int>)
    requires !start.Named? || exists j :: 0 <= j < |items| && SameName(items[j].name, start.s)
    requires forall j :: 0 <= j < |items| ==> !SameName(items[j].name, b)
    ensures Select(items, Range(start, Named(b), step)) == Err(StopNotFound(b))
  {
    assert FirstMatch(NameList(items), b).None? by {
      forall j | 0 <= j < |items| ensures !SameName(NameList(items)[j], b) { }
    }
    if start.Named? {
      var j :| 0 <= j < |items| && SameName(items[j].name, start.s);
      assert SameName(NameList(items)[j], start.s);
    }
  }

  /** Named bounds found at i and j select the items from i up to and including
      j; a stop name found before the start name selects nothing. */
  lemma {:induction false} NamedSliceIsInclusive(items: seq<NamedIndex>, a: string, b: string, i: nat, j: nat,
                                                 step: Option<int>)
    requires i < |items| && SameName(items[i].name, a) && forall k :: 0 <= k < i ==> !SameName(items[k].name, a)
    requires j < |items| && SameName(items[j].name, b) && forall k :: 0 <= k < j ==> !SameName(items[k].name, b)
    ensures Select(items, Range(Named(a), Named(b), step)) == Ok(Items(if i <= j then items[i..j + 1] else []))
    ensures i <= j ==> var xs := items[i..j + 1];
              |xs| == j - i + 1 && xs[0] == items[i] && xs[|xs| - 1] == items[j]
  {
    FirstMatchAt(items, a, i);
    FirstMatchAt(items, b, j);
    RangeSelects(items, Named(a), Named(b), step, Some(i), Some(j + 1));
    if i <= j {
      SliceEnds(items, i, j);
    }
  }

  /** A slice whose bounds resolve selects the slice between them; a step of
      `NamedSliceIsInclusive`. */
  lemma RangeSelects(items: seq<NamedIndex>, start: Bound, stop: Bound, step: Option<int>, lo: Option<nat>, hi: Option<nat>)
    requires StartOf(items, start) == Ok(lo) && StopOf(items, stop) == Ok(hi)
    ensures Select(items, Range(start, stop, step)) == Ok(Items(SliceOf(items, lo, hi)))
  {
  }

  /** The inclusive slice i..j begins with item i and ends with item j; a step
      of `NamedSliceIsInclusive`. */
  lemma SliceEnds(items: seq<NamedIndex>, i: nat, j: nat)
    requires i <= j < |items|
    ensures var xs := items[i..j + 1]; |xs| == j - i + 1 && xs[0] == items[i] && xs[|xs| - 1] == items[j]
  {
  }

  /** Whatever the bounds, a slice is a contiguous run of the list. */
  lemma SliceIsContiguous(items: seq<NamedIndex>, start: Bound, stop: Bound, step: Option<int>)
    requires Select(items, Range(start, stop, step)).Ok?
    ensures var r := Select(items, Range(start, stop, step)).value;
            r.Items? && exists l, h :: 0 <= l <= h <= |items| && r.xs == items[l..h]
  {
    var lo := StartOf(items, start).value;
    var hi := StopOf(items, stop).value;
    var l := if lo.None? then 0 else if lo.value > |items| then |items| else lo.value;
    var h := if hi.None? || hi.value > |items| then |items| else hi.value;
    if h <= l {
      assert SliceOf(items, lo, hi) == items[l..l];
    } else {
      assert SliceOf(items, lo, hi) == items[l..h];
    }
  }

  /** With both bounds left out, the whole list is selected. */
  lemma OpenSliceIsWholeList(items: seq<NamedIndex>, step: Option<int>)
    ensures Select(items, Range(Absent, Absent, step)) == Ok(Items(items))
  {
    assert items[0..|items|] == items;
  }

  /** The step is always 1: any step the caller passes gives the same slice. */
  lemma StepIsIgnored(items: seq<NamedIndex>, start: Bound, stop: Bound, s1: Option<int>, s2: Option<int>)
    ensures Select(items, Range(start, stop, s1)) == Select(items, Range(start, stop, s2))
  {
  }

  /** The four items of the source's comment, A to D. */
  function Abcd(): seq<NamedIndex>
  {
    [NamedIndex("A"), NamedIndex("B"), NamedIndex("C"), NamedIndex("D")]
  }

  /** Over A, B, C, D any spelling of `B:D` yields B, C and D. */
  lemma SliceBToDSpelled(b: string, d: string, step: Option<int>)
    requires Lower(b) == "b" && Lower(d) == "d"
    ensures Select(Abcd(), Range(Named(b), Named(d), step)) == Ok(Items(Abcd()[1..4]))
  {
    assert Lower("A") == "a" && Lower("B") == "b" && Lower("D") == "d";
    assert !SameName("A", d) && !SameName("C", d);
    NamedSliceIsInclusive(Abcd(), b, d, 1, 3, step);
  }

  /** The example of the source's comment: over A, B, C, D the slice `B:D`
      yields B, C and D, and case does not matter. */
  lemma SliceBToD(step: Option<int>)
    ensures Select(Abcd(), Range(Named("B"), Named("D"), step)) == Ok(Items([NamedIndex("B"), NamedIndex("C"), NamedIndex("D")]))
    ensures Select(Abcd(), Range(Named("b"), Named("d"), step)) == Ok(Items([NamedIndex("B"), NamedIndex("C"), NamedIndex("D")]))
  {
    assert Abcd()[1..4] == [NamedIndex("B"), NamedIndex("C"), NamedIndex("D")];
    assert Lower("B") == "b" && Lower("D") == "d" && Lower("b") == "b" && Lower("d") == "d";
    SliceBToDSpelled("B", "D", step);
    SliceBToDSpelled("b", "d", step);
  }

  /** `add_index` compares names exactly while lookups ignore case, so two
      spellings of one name are both kept and a lookup finds the first one. */
  method CaseVariantsAreBothKept() returns (r: Result<Selected, SliceError>, n: nat)
    ensures n == 2 && r == Ok(Item(NamedIndex("a")))
  {
    var ix := new NamedIndexes();
    ix.AddIndex("a");
    ix.AddIndex("A");
    assert ix.indexes == [NamedIndex("a"), NamedIndex("A")];
    assert Lower("a") == "a";
    KeySelectsFirstMatch(ix.indexes, "A", 0);
    r := ix.GetItem(Key("A"));
    n := |ix.indexes|;
  }

  /** As written, `add_index` and `__getitem__` raise on every input, while the
      intended definitions store a new name and find it again. */
  lemma AsWrittenRaises(items: seq<NamedIndex>, name: string, index: Index)
    ensures AddIndexAsWritten(items, name) == Err(NameError("i"))
    ensures SelectAsWritten(items, index) == Err(NameError("types"))
    ensures Select([NamedIndex("A")], Key("a")) == Ok(Item(NamedIndex("A")))
  {
    KeySelectsFirstMatch([NamedIndex("A")], "a", 0);
  }
}
