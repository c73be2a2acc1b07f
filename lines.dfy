/**
 * Text built one line at a time, as the Jedox server's tool results are:
 * a header followed by `result_text += line` for each returned item.
 */
module Lines {

  /** The lines of `items`, in order, each rendered by `line`. */
  function JoinLines<T>(items: seq<T>, line: T -> string): string {
    if items == [] then "" else JoinLines(items[..|items| - 1], line) + line(items[|items| - 1])
  }

  /** Appends one rendered line per item to `header`, in the order of `items`. */
  method RenderLines<T>(header: string, items: seq<T>, line: T -> string) returns (text: string)
    ensures text == header + JoinLines(items, line)
  {
    text := header;
    for i := 0 to |items|
      invariant text == header + JoinLines(items[..i], line)
    {
      assert items[..i + 1][..i] == items[..i];
      text := text + line(items[i]);
    }
    assert items[..|items|] == items;
  }

  lemma {:induction false} JoinLinesAppend<T>(items: seq<T>, more: seq<T>, line: T -> string)
    ensures JoinLines(items + more, line) == JoinLines(items, line) + JoinLines(more, line)
    decreases |more|
  {
    if more != [] {
      var last := |more| - 1;
      assert (items + more)[..|items + more| - 1] == items + more[..last];
      JoinLinesAppend(items, more[..last], line);
    } else {
      assert items + more == items;
    }
  }

  function NewlineCount(s: string): nat {
    if s == [] then 0 else (if s[0] == '\n' then 1 else 0) + NewlineCount(s[1..])
  }

  predicate HasNoNewline(s: string) {
    forall i :: 0 <= i < |s| ==> s[i] != '\n'
  }

  lemma {:induction false} NewlineCountConcat(a: string, b: string)
    ensures NewlineCount(a + b) == NewlineCount(a) + NewlineCount(b)
  {
    if a != [] {
      assert (a + b)[1..] == a[1..] + b;
      NewlineCountConcat(a[1..], b);
    } else {
      assert a + b == b;
    }
  }

  lemma {:induction false} NoNewlineCountsZero(s: string)
    requires HasNoNewline(s)
    ensures NewlineCount(s) == 0
  {
    if s != [] {
      NoNewlineCountsZero(s[1..]);
    }
  }

  /** A text without a line break, followed by one, is exactly one line. */
  lemma TerminatedLine(s: string)
    requires HasNoNewline(s)
    ensures NewlineCount(s + "\n") == 1
  {
    NewlineCountConcat(s, "\n");
    NoNewlineCountsZero(s);
  }

  /** When every rendered line is one line, the joined text has one line per item. */
  lemma {:induction false} OneLinePerItem<T>(items: seq<T>, line: T -> string)
    requires forall i :: 0 <= i < |items| ==> NewlineCount(line(items[i])) == 1
    ensures NewlineCount(JoinLines(items, line)) == |items|
    decreases |items|
  {
    if items != [] {
      var init := items[..|items| - 1];
      OneLinePerItem(init, line);
      NewlineCountConcat(JoinLines(init, line), line(items[|items| - 1]));
    }
  }

  /** A one-line header followed by one line per item. */
  lemma ListingLineCount<T>(header: string, items: seq<T>, line: T -> string)
    requires NewlineCount(header) == 1
    requires forall i :: 0 <= i < |items| ==> NewlineCount(line(items[i])) == 1
    ensures NewlineCount(header + JoinLines(items, line)) == |items| + 1
  {
    OneLinePerItem(items, line);
    NewlineCountConcat(header, JoinLines(items, line));
  }

  function Digit(d: nat): char
    requires d < 10
  {
    ('0' as int + d) as char
  }

  /** Python's `str(n)` for a natural number: its decimal digits, most significant first. */
  function Decimal(n: nat): (s: string)
    ensures |s| >= 1
    ensures forall i :: 0 <= i < |s| ==> '0' <= s[i] <= '9'
    ensures s[0] == '0' ==> n == 0
  {
    if n < 10 then [Digit(n)] else Decimal(n / 10) + [Digit(n % 10)]
  }

  /** The number a string of decimal digits denotes. */
  function DigitsValue(s: string): nat
    requires forall i :: 0 <= i < |s| ==> '0' <= s[i] <= '9'
  {
    if s == [] then 0 else DigitsValue(s[..|s| - 1]) * 10 + (s[|s| - 1] as int - '0' as int)
  }

  lemma {:induction false} DecimalRoundTrip(n: nat)
    ensures DigitsValue(Decimal(n)) == n
  {
    if n >= 10 {
      var s := Decimal(n);
      assert s[..|s| - 1] == Decimal(n / 10);
      DecimalRoundTrip(n / 10);
    }
  }
}
