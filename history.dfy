/** The bot's in-memory roll history: per identity, the last rolls, newest first. */
module RollHistory {
  import opened Errors

  /** The maxlen of every per-identity deque. */
  const Capacity: nat := 10

  /** deque.appendleft on a deque bounded by Capacity: the item goes in front and, when the
      deque is full, the entry at the far end (the oldest) is discarded. */
  function Pushed(log: seq<string>, item: string): (r: seq<string>)
    requires |log| <= Capacity
    ensures |r| == if |log| < Capacity then |log| + 1 else Capacity
    ensures r[0] == item && r[1..] == log[..|r| - 1]
  {
    var kept := if |log| == Capacity then log[..|log| - 1] else log;
    [item] + kept
  }

  /** The log after adding `items` in order (last one newest) to `log`. */
  function AddAll(log: seq<string>, items: seq<string>): (r: seq<string>)
    requires |log| <= Capacity
    ensures |r| <= Capacity
  {
    if items == [] then log else Pushed(AddAll(log, items[..|items| - 1]), items[|items| - 1])
  }

  /** Reference view of a history: the last Capacity items added, the newest first. */
  function MostRecent(items: seq<string>): seq<string> {
    var n := if |items| < Capacity then |items| else Capacity;
    seq(n, k requires 0 <= k < n => items[|items| - 1 - k])
  }

  // ---------------------------------------------------------------------------
  // Rendering

  function DigitChar(d: nat): char
    requires d < 10
  {
    ('0' as int + d) as char
  }

  /** The decimal digits of n, as str(n). */
  function Decimal(n: nat): (r: string)
    ensures |r| >= 1
  {
    if n < 10 then [DigitChar(n)] else Decimal(n / 10) + [DigitChar(n % 10)]
  }

  /** The number a string of decimal digits stands for (int(s) on digit strings). */
  function DecimalValue(s: string): int {
    if s == [] then 0 else DecimalValue(s[..|s| - 1]) * 10 + (s[|s| - 1] as int - '0' as int)
  }

  /** f"{i:>2}": the decimal of i, right-aligned with spaces to width 2. */
  function IndexLabel(i: nat): string {
    var d := Decimal(i);
    if |d| < 2 then " " + d else d
  }

  /** One line of the listing: index, a space, the entry, a newline. */
  function HistoryLine(i: nat, entry: string): string {
    IndexLabel(i) + " " + entry + "\n"
  }

  /** The lines of the listing in the order they are written: from the oldest entry
      (highest index) down to the newest (index 0). */
  function PrettyLines(h: seq<string>): (r: seq<string>)
    ensures |r| == |h|
  {
    if h == [] then [] else [HistoryLine(|h| - 1, h[|h| - 1])] + PrettyLines(h[..|h| - 1])
  }

  /** The strings of `parts` written one after another. */
  function Concat(parts: seq<string>): string {
    if parts == [] then "" else Concat(parts[..|parts| - 1]) + parts[|parts| - 1]
  }

  // ---------------------------------------------------------------------------
  // The store

  class History<Ident(==)> {
    var contents: map<Ident, seq<string>>

    /** Every identity present has a non-empty log of at most Capacity entries. */
    ghost predicate Valid()
      reads this
    {
      forall id :: id in contents ==> 1 <= |contents[id]| <= Capacity
    }

    /** contents.get(ident, []) */
    function Log(ident: Ident): seq<string>
      reads this
    {
      if ident in contents then contents[ident] else []
    }

    constructor ()
      ensures Valid() && contents == map[]
    {
      contents := map[];
    }

    /** add_item: creates the identity's deque on first use, then pushes the item in front. */
    method AddItem(ident: Ident, item: string)
      requires Valid()
      modifies this
      ensures Valid()
      ensures contents == old(contents)[ident := Pushed(old(Log(ident)), item)]
      ensures ident !in old(contents) ==> contents[ident] == [item]
      ensures GetItem(ident, 0) == Ok(item)
      ensures forall k :: 1 <= k < |Log(ident)| ==> GetItem(ident, k) == old(GetItem(ident, k - 1))
      ensures contents.Keys == old(contents).Keys + {ident}
      ensures forall other :: other != ident && other in old(contents) ==> contents[other] == old(contents)[other]
    {
      if ident !in contents {
        contents := contents[ident := []];
      }
      contents := contents[ident := Pushed(contents[ident], item)];
    }

    /** A run of add_item calls for one identity, oldest item first. */
    method AddItems(ident: Ident, items: seq<string>)
      requires Valid()
      modifies this
      ensures Valid()
      ensures Log(ident) == AddAll(old(Log(ident)), items)
      ensures ident !in old(contents) ==> Log(ident) == MostRecent(items)
      ensures contents.Keys == old(contents).Keys + (if items == [] then {} else {ident})
      ensures forall other :: other != ident && other in old(contents) ==> contents[other] == old(contents)[other]
    {
      for i := 0 to |items|
        invariant Valid()
        invariant Log(ident) == AddAll(old(Log(ident)), items[..i])
        invariant contents.Keys == old(contents).Keys + (if i == 0 then {} else {ident})
        invariant forall other :: other != ident && other in old(contents) ==> contents[other] == old(contents)[other]
      {
        assert items[..i + 1][..i] == items[..i];
        AddItem(ident, items[i]);
      }
      assert items[..|items|] == items;
      if ident !in old(contents) {
        AddAllKeepsMostRecent(items);
      }
    }

    /** get_item: Python indexing into the identity's log, so that a negative index counts
        from the oldest end; IndexError outside the log or for an unknown identity. */
    function GetItem(ident: Ident, index: int): (r: Result<string>)
      reads this
      ensures r.Ok? <==> ident in contents && -|contents[ident]| <= index < |contents[ident]|
      ensures r.Ok? ==> r.value == contents[ident][(index + |contents[ident]|) % |contents[ident]|]
    {
      var h := Log(ident);
      if 0 <= index < |h| then Ok(h[index])
      else if -|h| <= index < 0 then Ok(h[|h| + index])
      else IndexError
    }

    /** get_pretty_history: one line per entry, oldest first, each labelled with its index. */
    method GetPrettyHistory(ident: Ident) returns (msg: string)
      ensures msg == Concat(PrettyLines(Log(ident)))
      ensures Valid() ==> (msg == "" <==> ident !in contents)
    {
      var h := if ident in contents then contents[ident] else [];
      msg := "";
      for i := |h| downto 0
        invariant msg == Concat(PrettyLines(h)[..|h| - i])
      {
        PrettyLinesStep(h, |h| - i - 1);
        ConcatSnoc(PrettyLines(h)[..|h| - i - 1], HistoryLine(i, h[i]));
        msg := msg + HistoryLine(i, h[i]);
      }
      assert PrettyLines(h)[..|h|] == PrettyLines(h);
      if h != [] {
        var p := PrettyLines(h);
        PrettyLineAt(h, |p| - 1);
        ConcatLength(p);
      }
    }
  }

  // ---------------------------------------------------------------------------
  // Properties

  /** A push evicts nothing below capacity and exactly the oldest entry at capacity. */
  lemma PushedEvictsOnlyOldest(log: seq<string>, item: string)
    requires |log| <= Capacity
    ensures |log| < Capacity ==> multiset(Pushed(log, item)) == multiset(log) + multiset{item}
    ensures |log| == Capacity ==>
      multiset(Pushed(log, item)) == multiset(log) - multiset{log[Capacity - 1]} + multiset{item}
  {
    if |log| == Capacity {
      assert log == log[..Capacity - 1] + [log[Capacity - 1]];
    }
  }

  /** However many items an identity receives, its log is the last Capacity of them, newest first. */
  lemma {:induction false} AddAllKeepsMostRecent(items: seq<string>)
    ensures AddAll([], items) == MostRecent(items)
  {
    if items != [] {
      var init := items[..|items| - 1];
      AddAllKeepsMostRecent(init);
      var r := Pushed(MostRecent(init), items[|items| - 1]);
      var m := MostRecent(items);
      assert |r| == |m|;
      forall k | 0 <= k < |m| ensures r[k] == m[k] {
        if k > 0 {
          assert r[k] == r[1..][k - 1] == MostRecent(init)[k - 1];
        }
      }
    }
  }

  /** The label is the index written in decimal: reading its digits back gives the index. */
  lemma {:induction false} DecimalRoundTrip(n: nat)
    ensures DecimalValue(Decimal(n)) == n
  {
    var d := Decimal(n);
    if n < 10 {
      assert d[..0] == [];
    } else {
      DecimalRoundTrip(n / 10);
      assert d[..|d| - 1] == Decimal(n / 10);
    }
  }

  /** The label is str(n): decimal digits only, with a leading '0' only for n == 0. */
  lemma {:induction false} DecimalDigits(n: nat)
    ensures forall k :: 0 <= k < |Decimal(n)| ==> '0' <= Decimal(n)[k] <= '9'
    ensures Decimal(n)[0] == '0' <==> n == 0
  {
    if n >= 10 {
      DecimalDigits(n / 10);
      var d := Decimal(n);
      assert d == Decimal(n / 10) + [DigitChar(n % 10)];
      assert d[0] == Decimal(n / 10)[0];
    }
  }

  /** Line k of the listing shows index |h|-1-k with the entry stored at that index:
      the oldest entry comes first with the highest index, the newest last with index 0. */
  lemma {:induction false} PrettyLinesAt(h: seq<string>)
    ensures forall k :: 0 <= k < |h| ==> PrettyLines(h)[k] == HistoryLine(|h| - 1 - k, h[|h| - 1 - k])
  {
    if h != [] {
      var init := h[..|h| - 1];
      PrettyLinesAt(init);
      var p, q := PrettyLines(h), PrettyLines(init);
      forall k | 1 <= k < |h|
        ensures p[k] == HistoryLine(|h| - 1 - k, h[|h| - 1 - k])
      {
        assert p[k] == q[k - 1];
        assert init[|init| - 1 - (k - 1)] == h[|h| - 1 - k];
      }
    }
  }

  /** Line k of the listing, one line at a time. */
  lemma PrettyLineAt(h: seq<string>, k: nat)
    requires k < |h|
    ensures PrettyLines(h)[k] == HistoryLine(|h| - 1 - k, h[|h| - 1 - k])
  {
    PrettyLinesAt(h);
  }

  /** Writing one more line of the listing appends exactly that line. */
  lemma PrettyLinesStep(h: seq<string>, m: nat)
    requires m < |h|
    ensures PrettyLines(h)[..m + 1] == PrettyLines(h)[..m] + [HistoryLine(|h| - 1 - m, h[|h| - 1 - m])]
  {
    PrettyLineAt(h, m);
    TakeOneMore(PrettyLines(h), m);
  }

  /** A prefix one longer is the prefix plus the next element. */
  lemma TakeOneMore(p: seq<string>, m: nat)
    requires m < |p|
    ensures p[..m + 1] == p[..m] + [p[m]]
  {
  }

  /** Appending to the text written so far is writing one more part. */
  lemma ConcatSnoc(parts: seq<string>, x: string)
    ensures Concat(parts + [x]) == Concat(parts) + x
  {
    assert (parts + [x])[..|parts|] == parts;
  }

  /** The label is the decimal of the index, padded on the left with spaces to width 2. */
  lemma IndexLabelRightAligned(i: nat)
    ensures var r, d := IndexLabel(i), Decimal(i);
      |r| == (if |d| < 2 then 2 else |d|) && r[|r| - |d|..] == d &&
      forall k :: 0 <= k < |r| - |d| ==> r[k] == ' '
  {
  }

  /** Writing parts one after another loses nothing: the result is at least as long as the last part. */
  lemma ConcatLength(parts: seq<string>)
    requires parts != []
    ensures |Concat(parts)| >= |parts[|parts| - 1]|
  {
  }

  /** Below 10 a line reads: a space, the digit, a space, the entry, a newline. */
  lemma HistoryLineOfDigit(i: nat, entry: string)
    requires i < 10
    ensures HistoryLine(i, entry) == [' ', DigitChar(i), ' '] + entry + "\n"
  {
    assert Decimal(i) == [DigitChar(i)];
    assert IndexLabel(i) == [' ', DigitChar(i)];
  }

  /** For a valid log (at most Capacity entries) every label is a space and one digit. */
  lemma PrettyLineOfValidLog(h: seq<string>, k: nat)
    requires |h| <= Capacity && k < |h|
    ensures PrettyLines(h)[k] == [' ', DigitChar(|h| - 1 - k), ' '] + h[|h| - 1 - k] + "\n"
  {
    var i := |h| - 1 - k;
    calc {
      PrettyLines(h)[k];
    == { PrettyLineAt(h, k); }
      HistoryLine(i, h[i]);
    == { HistoryLineOfDigit(i, h[i]); }
      [' ', DigitChar(i), ' '] + h[i] + "\n";
    }
  }

  /** Three entries C, B, A (C newest) are listed as A with 2, B with 1, C with 0. */
  lemma PrettyHistoryOfThree()
    ensures Concat(PrettyLines(["C", "B", "A"])) == " 2 A\n 1 B\n 0 C\n"
  {
    var p := [" 2 A\n", " 1 B\n", " 0 C\n"];
    LinesOfThree();
    ConcatSnoc([], p[0]);
    ConcatSnoc([p[0]], p[1]);
    assert p == [p[0], p[1]] + [p[2]];
    ConcatSnoc([p[0], p[1]], p[2]);
  }

  /** The three lines of the listing of C, B, A. */
  lemma LinesOfThree()
    ensures PrettyLines(["C", "B", "A"]) == [" 2 A\n", " 1 B\n", " 0 C\n"]
  {
    var h := ["C", "B", "A"];
    PrettyLineOfValidLog(h, 0);
    PrettyLineOfValidLog(h, 1);
    PrettyLineOfValidLog(h, 2);
    var p := PrettyLines(h);
    assert p[0] == " 2 A\n" && p[1] == " 1 B\n" && p[2] == " 0 C\n";
  }
}
