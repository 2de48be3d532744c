/** MonoWorks.Base.CollectionExtensions: writing a list as "[a,b,c]" and the First/Last accessors. */
module Base {

  /** The item strings joined by commas, with no comma after the last one. */
  function Join(items: seq<string>): string
  {
    if |items| == 0 then ""
    else if |items| == 1 then items[0]
    else Join(items[..|items| - 1]) + "," + items[|items| - 1]
  }

  /** Every item followed by one comma: what the loop of ListString has built when it has
      appended all the items, before the last comma is removed. */
  function Terminated(items: seq<string>): string
  {
    if |items| == 0 then "" else Terminated(items[..|items| - 1]) + items[|items| - 1] + ","
  }

  /** The number of occurrences of `c` in `s`. */
  function Occurrences(s: string, c: char): nat
  {
    if |s| == 0 then 0 else Occurrences(s[..|s| - 1], c) + (if s[|s| - 1] == c then 1 else 0)
  }

  /** The total number of commas inside the items themselves. */
  function ItemCommas(items: seq<string>): nat
  {
    if |items| == 0 then 0 else ItemCommas(items[..|items| - 1]) + Occurrences(items[|items| - 1], ',')
  }

  /** The list written as "[" + items joined by "," + "]". The StringBuilder is the local
      `builder`; each item is given as the string its ToString() returns. */
  method ListString(items: seq<string>) returns (s: string)
    ensures s == "[" + Join(items) + "]"
    ensures |s| >= 2 && s[0] == '[' && s[|s| - 1] == ']'
    ensures |items| == 0 ==> s == "[]"
  {
    var builder := "[";
    var i := 0;
    while i < |items|
      invariant 0 <= i <= |items|
      invariant builder == "[" + Terminated(items[..i])
    {
      assert items[..i + 1][..i] == items[..i];
      builder := builder + items[i];
      builder := builder + ",";
      i := i + 1;
    }
    assert items[..i] == items;
    if |items| > 0 {
      // drop the final separator
      TerminatedIsJoinAndComma(items);
      assert builder == "[" + Join(items) + ",";
      builder := builder[..|builder| - 1];
    }
    builder := builder + "]";
    s := builder;
  }

  /** Removing the last comma of the loop's output leaves exactly the joined items. */
  lemma {:induction false} TerminatedIsJoinAndComma(items: seq<string>)
    requires |items| > 0
    ensures Terminated(items) == Join(items) + ","
  {
    var n := |items|;
    var front := items[..n - 1];
    if n > 1 {
      TerminatedIsJoinAndComma(front);
    } else {
      assert front == [];
    }
  }

  lemma {:induction false} OccurrencesAppend(a: string, b: string, c: char)
    ensures Occurrences(a + b, c) == Occurrences(a, c) + Occurrences(b, c)
  {
    if |b| > 0 {
      assert (a + b)[..|a + b| - 1] == a + b[..|b| - 1];
      OccurrencesAppend(a, b[..|b| - 1], c);
    } else {
      assert a + b == a;
    }
  }

  /** The loop appends exactly one comma per item, on top of the commas inside the items. */
  lemma {:induction false} TerminatedCommas(items: seq<string>)
    ensures Occurrences(Terminated(items), ',') == ItemCommas(items) + |items|
  {
    var n := |items|;
    if n > 0 {
      var front := items[..n - 1];
      TerminatedCommas(front);
      OccurrencesAppend(Terminated(front), items[n - 1], ',');
      OccurrencesAppend(Terminated(front) + items[n - 1], ",", ',');
      assert Occurrences(",", ',') == 1 by {
        assert ","[..0] == "";
      }
    }
  }

  /** The written list holds one comma fewer than the loop appended when the list is
      non-empty, and none when it is empty: exactly one comma separates neighbouring items. */
  lemma ListStringCommas(items: seq<string>)
    ensures Occurrences("[" + Join(items) + "]", ',')
         == ItemCommas(items) + (if |items| == 0 then 0 else |items| - 1)
  {
    var s := "[" + Join(items) + "]";
    OccurrencesAppend("[" + Join(items), "]", ',');
    OccurrencesAppend("[", Join(items), ',');
    assert Occurrences("[", ',') == 0 by { assert "["[..0] == ""; }
    assert Occurrences("]", ',') == 0 by { assert "]"[..0] == ""; }
    if |items| == 0 {
    } else {
      TerminatedIsJoinAndComma(items);
      TerminatedCommas(items);
      OccurrencesAppend(Join(items), ",", ',');
      assert Occurrences(",", ',') == 1 by { assert ","[..0] == ""; }
    }
  }

  /** The first element of a non-empty list (indexing an empty list throws). */
  function First<T>(list: seq<T>): (r: T)
    requires |list| > 0
    ensures list == [r] + list[1..]
  {
    list[0]
  }

  /** The last element of a non-empty list (indexing an empty list throws). */
  function Last<T>(list: seq<T>): (r: T)
    requires |list| > 0
    ensures list == list[..|list| - 1] + [r]
  {
    list[|list| - 1]
  }

  /** For a one-element list, First and Last are the same element. */
  lemma FirstIsLastOfSingleton<T>(list: seq<T>)
    requires |list| == 1
    ensures First(list) == Last(list)
  {
  }
}
