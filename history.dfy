/** The "Recent Conversations" panel: the last three chat exchanges, newest
    first, each with its question cut to 50 characters for the expander title
    and its response cut to 200 characters. */
module History {
  import opened Text
  import opened Finance

  const ShownExchanges: nat := 3
  const TitleWidth: nat := 50
  const PreviewWidth: nat := 200

  /** One expander of the panel: its title text, the full question shown in its
      body, the response preview and the time the question was asked. */
  datatype HistoryEntry = HistoryEntry(
    title: string, question: string, preview: string, askedAt: Timestamp)

  /** `h[-n:]`: the last `n` items, or all of `h` when it is shorter. */
  function Last<T>(h: seq<T>, n: nat): seq<T> {
    if |h| <= n then h else h[|h| - n..]
  }

  function Reverse<T>(s: seq<T>): seq<T> {
    if s == [] then [] else Reverse(s[1..]) + [s[0]]
  }

  /** Position `i` of the reversal holds the item `i` places from the end. */
  lemma {:induction false} ReverseAt<T>(s: seq<T>)
    ensures |Reverse(s)| == |s|
    ensures forall i :: 0 <= i < |s| ==> Reverse(s)[i] == s[|s| - 1 - i]
  {
    if s != [] {
      ReverseAt(s[1..]);
    }
  }

  /** One expander: the question cut for the title, the full question, the
      response cut for the preview, and the time it was asked. */
  function Render(c: ChatExchange): (e: HistoryEntry)
    ensures e.title <= c.question && e.preview <= c.response
    ensures e.question == c.question && e.askedAt == c.timestamp
  {
    HistoryEntry(Prefix(c.question, TitleWidth), c.question,
                 Prefix(c.response, PreviewWidth), c.timestamp)
  }

  /** `reversed(chat_history[-3:])`, each exchange rendered: at most three
      entries, the newest exchange first. */
  function HistoryView(h: seq<ChatExchange>): (v: seq<HistoryEntry>)
    ensures |v| == (if |h| <= ShownExchanges then |h| else ShownExchanges)
    ensures forall i :: 0 <= i < |v| ==> v[i] == Render(h[|h| - 1 - i])
  {
    var w := Reverse(Last(h, ShownExchanges));
    ReverseAt(Last(h, ShownExchanges));
    seq(|w|, i requires 0 <= i < |w| => Render(w[i]))
  }

  /** Every entry's title is the question's first 50 characters and its preview
      the response's first 200, both whole when short enough; the question in
      the body is never cut. */
  lemma EntryTruncation(c: ChatExchange)
    ensures var e := Render(c);
      e.title == c.question[..if |c.question| <= TitleWidth then |c.question| else TitleWidth] &&
      e.preview == c.response[..if |c.response| <= PreviewWidth then |c.response| else PreviewWidth] &&
      (|c.question| <= TitleWidth ==> e.title == c.question) &&
      (|c.response| <= PreviewWidth ==> e.preview == c.response) &&
      e.question == c.question
  {
  }

  /** Appending an exchange puts it at the top of the panel and pushes the
      others down one place, dropping the oldest of three. */
  lemma ViewAfterAppend(h: seq<ChatExchange>, c: ChatExchange)
    ensures var before := HistoryView(h);
      HistoryView(h + [c]) ==
        [Render(c)] + (if |before| < ShownExchanges then before else before[..ShownExchanges - 1])
  {
    var before := HistoryView(h);
    var after := HistoryView(h + [c]);
    var expected := [Render(c)] + (if |before| < ShownExchanges then before else before[..ShownExchanges - 1]);
    assert |after| == |expected|;
    forall i | 0 <= i < |after| ensures after[i] == expected[i] {
      if i > 0 {
        assert (h + [c])[|h| - i] == h[|h| - 1 - (i - 1)];
      }
    }
  }

  /** Four questions asked in order show as the fourth, third and second. */
  lemma ViewExample(q1: ChatExchange, q2: ChatExchange, q3: ChatExchange, q4: ChatExchange)
    ensures HistoryView([q1, q2, q3, q4]) == [Render(q4), Render(q3), Render(q2)]
  {
    var v := HistoryView([q1, q2, q3, q4]);
    assert v[0] == Render(q4) && v[1] == Render(q3) && v[2] == Render(q2);
  }
}
