/** Post-processing of the market-news reply: the reply text is cut into lines,
    each line is stripped, blank lines are dropped and the first five that are
    left are shown, in their original order. */
module News {
  import opened Text

  /** At most this many headlines are shown. */
  const MaxHeadlines: nat := 5

  /** `[line.strip() for line in lines if line.strip()]`. */
  function Headlines(lines: seq<string>): (r: seq<string>)
    ensures |r| <= |lines|
    ensures forall k :: 0 <= k < |r| ==> r[k] != "" && Strip(r[k]) == r[k]
  {
    if lines == [] then []
    else
      var head := Strip(lines[0]);
      var rest := Headlines(lines[1..]);
      if head == "" then rest
      else
        StripIdempotent(lines[0]);
        [head] + rest
  }

  /** The filter works line by line: filtering a concatenation is concatenating
      the filtered parts. Together with the one-line case this fixes Headlines
      completely, and it says that the kept lines keep their order. */
  lemma {:induction false} HeadlinesAppend(a: seq<string>, b: seq<string>)
    ensures Headlines(a + b) == Headlines(a) + Headlines(b)
    decreases |a|
  {
    if a == [] {
      assert a + b == b;
    } else {
      assert (a + b)[0] == a[0];
      assert (a + b)[1..] == a[1..] + b;
      HeadlinesAppend(a[1..], b);
    }
  }

  lemma HeadlinesOfOneLine(line: string)
    ensures Headlines([line]) == if IsBlank(line) then [] else [Strip(line)]
  {
    assert [line][1..] == [];
  }

  /** A list of lines none of which is blank loses nothing: every line is kept,
      stripped, at its own position. */
  lemma {:induction false} HeadlinesKeepNonBlank(lines: seq<string>)
    requires forall k :: 0 <= k < |lines| ==> !IsBlank(lines[k])
    ensures |Headlines(lines)| == |lines|
    ensures forall k :: 0 <= k < |lines| ==> Headlines(lines)[k] == Strip(lines[k])
  {
    if lines != [] {
      var tail := lines[1..];
      assert forall k :: 0 <= k < |tail| ==> !IsBlank(tail[k]) by {
        forall k | 0 <= k < |tail| ensures !IsBlank(tail[k]) {
          assert tail[k] == lines[k + 1];
        }
      }
      HeadlinesKeepNonBlank(tail);
      var h := Headlines(lines);
      assert h == [Strip(lines[0])] + Headlines(tail);
      forall k | 0 <= k < |lines| ensures h[k] == Strip(lines[k]) {
        if k > 0 {
          assert h[k] == Headlines(tail)[k - 1];
          assert tail[k - 1] == lines[k];
        }
      }
    }
  }

  /** The shown headlines for a reply text: `news_items[:5]`. */
  function NewsItems(text: string): (r: seq<string>)
    ensures |r| <= MaxHeadlines
    ensures forall k :: 0 <= k < |r| ==> r[k] != "" && Strip(r[k]) == r[k]
    ensures var all := Headlines(Split(text, '\n'));
      r <= all && |r| == (if |all| <= MaxHeadlines then |all| else MaxHeadlines)
  {
    var all := Headlines(Split(text, '\n'));
    if |all| <= MaxHeadlines then all else all[..MaxHeadlines]
  }

  /** For a reply made of given lines, the headlines are the first five
      non-blank lines, stripped. */
  lemma NewsItemsOfLines(lines: seq<string>)
    requires |lines| >= 1
    requires forall k :: 0 <= k < |lines| ==> '\n' !in lines[k]
    ensures var all := Headlines(lines);
      NewsItems(Join(lines, '\n')) == if |all| <= MaxHeadlines then all else all[..MaxHeadlines]
  {
    SplitInvertsJoin(lines, '\n');
  }

  lemma JoinCons(p: string, rest: seq<string>, sep: char)
    requires |rest| >= 1
    ensures Join([p] + rest, sep) == p + [sep] + Join(rest, sep)
  {
    assert ([p] + rest)[1..] == rest;
  }

  lemma ExampleLinesJoin()
    ensures Join(["A", "", "B", "C", "D", "E", "F"], '\n') == "A\n\nB\nC\nD\nE\nF"
  {
    var last := ["B", "C", "D", "E", "F"];
    JoinCons("E", ["F"], '\n');
    JoinCons("D", ["E", "F"], '\n');
    JoinCons("C", ["D", "E", "F"], '\n');
    JoinCons("B", ["C", "D", "E", "F"], '\n');
    JoinCons("", last, '\n');
    JoinCons("A", [""] + last, '\n');
    assert ["A", "", "B", "C", "D", "E", "F"] == ["A"] + ([""] + last);
  }

  lemma ExampleHeadLines()
    ensures Headlines(["A", ""]) == ["A"]
  {
    HeadlinesAppend(["A"], [""]);
    HeadlinesOfOneLine("A");
    HeadlinesOfOneLine("");
    assert ["A"] + [""] == ["A", ""];
  }

  lemma ExampleTailLines()
    ensures Headlines(["B", "C", "D", "E", "F"]) == ["B", "C", "D", "E", "F"]
  {
    HeadlinesKeepNonBlank(["B", "C", "D", "E", "F"]);
  }

  lemma ExampleLinesHeadlines()
    ensures Headlines(["A", "", "B", "C", "D", "E", "F"]) == ["A", "B", "C", "D", "E", "F"]
  {
    var first, last := ["A", ""], ["B", "C", "D", "E", "F"];
    ExampleHeadLines();
    ExampleTailLines();
    HeadlinesAppend(first, last);
    assert ["A", "", "B", "C", "D", "E", "F"] == first + last;
    assert ["A"] + last == ["A", "B", "C", "D", "E", "F"];
  }

  /** A blank second line is dropped and does not count toward the five; the
      sixth non-blank line is not shown. */
  lemma NewsExample()
    ensures NewsItems("A\n\nB\nC\nD\nE\nF") == ["A", "B", "C", "D", "E"]
  {
    var lines := ["A", "", "B", "C", "D", "E", "F"];
    ExampleLinesJoin();
    ExampleLinesHeadlines();
    NewsItemsOfLines(lines);
  }
}
