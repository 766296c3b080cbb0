/**
 Reading the last lines of a log from its end, block by block, against splitting the whole
 file forward.
 */
module LogTail {

  const BLOCK: nat := 8192

  // ----- the plain reading -----

  function NewlineFrom(s: string, i: nat): (k: nat)
    requires i <= |s|
    ensures i <= k <= |s| && (k < |s| ==> s[k] == '\n')
    decreases |s| - i
  {
    if i == |s| || s[i] == '\n' then i else NewlineFrom(s, i + 1)
  }

  /** Lines as std::getline delivers them: a last line needs no newline, an empty rest is no line. */
  function Split(s: string): seq<string>
    decreases |s|
  {
    if s == "" then []
    else
      var k := NewlineFrom(s, 0);
      if k == |s| then [s] else [s[..k]] + Split(s[k + 1..])
  }

  function Last<T>(s: seq<T>, n: nat): seq<T> {
    if |s| <= n then s else s[|s| - n..]
  }

  function Count(s: string): nat {
    if s == "" then 0 else Count(s[..|s| - 1]) + (if s[|s| - 1] == '\n' then 1 else 0)
  }

  lemma {:induction false} NewlineStops(s: string, i: nat, k: nat)
    requires i <= k <= |s| && (forall j | i <= j < k :: s[j] != '\n') && (k == |s| || s[k] == '\n')
    ensures NewlineFrom(s, i) == k
    decreases k - i
  {
    if i < k { NewlineStops(s, i + 1, k); }
  }

  lemma {:induction false} NoEarlier(s: string, i: nat)
    requires i <= |s|
    ensures forall j | i <= j < NewlineFrom(s, i) :: s[j] != '\n'
    decreases |s| - i
  {
    if i < |s| && s[i] != '\n' { NoEarlier(s, i + 1); }
  }

  lemma FirstLine(s: string, k: nat)
    requires k < |s| && s[k] == '\n' && forall j | 0 <= j < k :: s[j] != '\n'
    ensures Split(s) == [s[..k]] + Split(s[k + 1..])
  {
    NewlineStops(s, 0, k);
  }

  lemma NewlineBy(s: string, at: nat) returns (k: nat)
    requires at < |s| && s[at] == '\n'
    ensures k <= at && s[k] == '\n' && forall j | 0 <= j < k :: s[j] != '\n'
  {
    k := NewlineFrom(s, 0);
    NoEarlier(s, 0);
  }

  lemma NoLines()
    ensures Split("") == []
  {}

  /** Whole lines in front do not change the lines after them. */
  lemma {:induction false} SplitAfterNewline(a: string, b: string)
    ensures Split(a + "\n" + b) == Split(a + "\n") + Split(b)
    decreases |a|
  {
    hide Split, NewlineFrom;
    var text, front := a + "\n" + b, a + "\n";
    var k := NewlineBy(front, |a|);
    assert text[..|front|] == front;
    assert forall j | 0 <= j < |front| :: text[j] == text[..|front|][j];
    FirstLine(front, k);
    FirstLine(text, k);
    assert text[..k] == front[..k];
    if k == |a| {
      NoLines();
      assert text[k + 1..] == b && front[k + 1..] == "";
    } else {
      var rest := a[k + 1..];
      assert text[k + 1..] == rest + "\n" + b && front[k + 1..] == rest + "\n";
      SplitAfterNewline(rest, b);
      Associates([front[..k]], Split(rest + "\n"), Split(b));
    }
  }

  lemma Associates(a: seq<string>, b: seq<string>, c: seq<string>)
    ensures a + (b + c) == a + b + c
  {}

  lemma {:induction false} CountConcat(a: string, b: string)
    ensures Count(a + b) == Count(a) + Count(b)
    decreases |b|
  {
    if b == "" {
      assert a + b == a;
    } else {
      assert (a + b)[..|a + b| - 1] == a + b[..|b| - 1];
      CountConcat(a, b[..|b| - 1]);
    }
  }

  lemma {:induction false} CountNone(s: string)
    requires forall i | 0 <= i < |s| :: s[i] != '\n'
    ensures Count(s) == 0
    decreases |s|
  {
    if s != "" { CountNone(s[..|s| - 1]); }
  }

  /** There are at least as many lines as newlines. */
  lemma {:induction false} LinesCoverNewlines(s: string)
    ensures |Split(s)| >= Count(s)
    decreases |s|
  {
    if s != "" {
      var k := NewlineFrom(s, 0);
      NoEarlier(s, 0);
      if k == |s| {
        CountNone(s);
      } else {
        LinesCoverNewlines(s[k + 1..]);
        assert s == s[..k] + "\n" + s[k + 1..];
        CountConcat(s[..k] + "\n", s[k + 1..]);
        CountConcat(s[..k], "\n");
        CountNone(s[..k]);
        assert Count("\n") == 1;
      }
    }
  }

  lemma LastOfConcat<T>(a: seq<T>, b: seq<T>, n: nat)
    requires |b| >= n
    ensures Last(a + b, n) == Last(b, n)
  {}

  // ----- reversing -----

  function Reversed(s: string): (r: string)
    ensures |r| == |s|
  {
    seq(|s|, i requires 0 <= i < |s| => s[|s| - 1 - i])
  }

  lemma ReversedConcat(a: string, b: string)
    ensures Reversed(a + b) == Reversed(b) + Reversed(a)
  {}

  lemma ReversedTwice(s: string)
    ensures Reversed(Reversed(s)) == s
  {}

  /** std::reverse over the first `n` characters. */
  method ReverseFront(buffer: array<char>, n: nat)
    requires n <= buffer.Length
    modifies buffer
    ensures buffer[..n] == Reversed(old(buffer[..n]))
  {
    ghost var was := buffer[..n];
    var low, high := 0, n;
    while low + 1 < high
      invariant 0 <= low <= high <= n && low + high == n
      invariant forall k | 0 <= k < low :: buffer[k] == was[n - 1 - k] && buffer[n - 1 - k] == was[k]
      invariant forall k | low <= k < high :: buffer[k] == was[k]
    {
      high := high - 1;
      buffer[low], buffer[high] := buffer[high], buffer[low];
      low := low + 1;
    }
    forall k | 0 <= k < n ensures buffer[k] == was[n - 1 - k] {
      if k >= low { assert high <= k || k == n - 1 - k || (low <= k < high); }
      if k >= high { assert buffer[n - 1 - (n - 1 - k)] == was[n - 1 - k]; }
    }
  }

  method CountNewlines(buffer: array<char>, n: nat) returns (count: nat)
    requires n <= buffer.Length
    ensures count == Count(buffer[..n])
  {
    count := 0;
    var i := 0;
    while i < n
      invariant 0 <= i <= n && count == Count(buffer[..i])
    {
      assert buffer[..i + 1][..i] == buffer[..i];
      if buffer[i] == '\n' { count := count + 1; }
      i := i + 1;
    }
  }

  // ----- the backward reader -----

  /** Blocks from the end until enough newlines are in, assembled in reverse. */
  method ReadBack(content: string, maxLines: nat) returns (begin: nat, tail: string)
    requires content != ""
    ensures begin <= |content| && tail == content[begin..]
    ensures begin > 0 ==> Count(tail) > maxLines
  {
    hide Count, Reversed;
    var buffer := new char[BLOCK];
    begin, tail := |content|, "";
    var newlines := 0;
    assert content[begin..] == "";
    NothingYet();
    while begin > 0 && newlines <= maxLines
      invariant 0 <= begin <= |content|
      invariant newlines == Count(content[begin..]) && tail == Reversed(content[begin..])
      decreases begin
    {
      var bytes := if begin < BLOCK then begin else BLOCK;
      ghost var later := content[begin..];
      begin := begin - bytes;
      forall i | 0 <= i < bytes { buffer[i] := content[begin + i]; }
      ghost var block := content[begin..begin + bytes];
      assert buffer[..bytes] == block && content[begin..] == block + later;
      var more := CountNewlines(buffer, bytes);
      newlines := newlines + more;
      CountConcat(block, later);
      ReverseFront(buffer, bytes);
      ReversedConcat(block, later);
      tail := tail + buffer[..bytes];
    }
    ghost var forward := content[begin..];
    var whole := new char[|tail|](i requires 0 <= i < |tail| => tail[i]);
    assert whole[..|tail|] == tail;
    ReverseFront(whole, |tail|);
    ReversedTwice(forward);
    tail := whole[..|tail|];
  }

  lemma NothingYet()
    ensures Count("") == 0 && Reversed("") == ""
  {}

  /** The getline loop with its sliding window. */
  method LastLines(text: string, maxLines: nat) returns (lines: seq<string>)
    requires maxLines > 0
    ensures lines == Last(Split(text), maxLines)
  {
    hide Split, Last;
    lines := [];
    var position := 0;
    ghost var done: seq<string> := [];
    NothingSplit(maxLines);
    assert text[0..] == text && done + Split(text) == Split(text);
    while position < |text|
      invariant 0 <= position <= |text|
      invariant done + Split(text[position..]) == Split(text) && lines == Last(done, maxLines)
      decreases |text| - position
    {
      var newline := position;
      while newline < |text| && text[newline] != '\n'
        invariant position <= newline <= |text|
        invariant forall j | position <= j < newline :: text[j] != '\n'
      {
        newline := newline + 1;
      }
      var line := text[position..newline];
      NextLine(text, position, newline);
      ghost var next := if newline < |text| then newline + 1 else newline;
      assert done + ([line] + Split(text[next..])) == done + [line] + Split(text[next..]);
      Slide(done, lines, line, maxLines);
      lines := lines + [line];
      if |lines| > maxLines { lines := lines[1..]; }
      done := done + [line];
      position := if newline < |text| then newline + 1 else newline;
    }
    assert text[position..] == "" && done + [] == done;
  }

  lemma NothingSplit(maxLines: nat)
    ensures Split("") == [] && Last<string>([], maxLines) == []
  {}

  lemma NextLine(text: string, position: nat, newline: nat)
    requires position < |text| && position <= newline <= |text|
    requires (forall j | position <= j < newline :: text[j] != '\n') && (newline == |text| || text[newline] == '\n')
    ensures var next := if newline < |text| then newline + 1 else newline;
            Split(text[position..]) == [text[position..newline]] + Split(text[next..])
  {
    var rest := text[position..];
    NewlineStops(rest, 0, newline - position);
    if newline < |text| {
      assert rest[..newline - position] == text[position..newline];
      assert rest[newline - position + 1..] == text[newline + 1..];
    } else {
      assert rest == text[position..newline];
      assert text[newline..] == "";
    }
  }

  lemma Slide(done: seq<string>, lines: seq<string>, line: string, n: nat)
    requires n > 0 && lines == Last(done, n)
    ensures var more := lines + [line];
            (if |more| > n then more[1..] else more) == Last(done + [line], n)
  {}

  /** ReadRecentLogLines: exactly the last lines of the forward split; the missing-newline exit is dead. */
  method ReadRecentLogLines(content: string, maxLines: nat) returns (lines: seq<string>)
    ensures lines == Last(Split(content), maxLines)
  {
    if maxLines == 0 {
      assert Last(Split(content), 0) == [];
      return [];
    }
    if content == "" { return []; }
    var begin, tail := ReadBack(content, maxLines);
    if begin > 0 {
      var newline := 0;
      while newline < |tail| && tail[newline] != '\n'
        invariant 0 <= newline <= |tail|
        invariant forall j | 0 <= j < newline :: tail[j] != '\n'
      {
        newline := newline + 1;
      }
      if newline == |tail| { CountNone(tail); }
      if newline == |tail| { return []; }
      CutIsHarmless(content, begin, newline, maxLines);
      tail := tail[newline + 1..];
    }
    lines := LastLines(tail, maxLines);
  }

  lemma CutCount(tail: string, newline: nat)
    requires newline < |tail| && tail[newline] == '\n' && forall j | 0 <= j < newline :: tail[j] != '\n'
    ensures Count(tail) == 1 + Count(tail[newline + 1..])
  {
    var rest := tail[newline + 1..];
    assert tail == tail[..newline] + "\n" + rest;
    CountConcat(tail[..newline] + "\n", rest);
    CountConcat(tail[..newline], "\n");
    CountNone(tail[..newline]);
    assert Count("\n") == 1;
  }

  /** Dropping the cut first line leaves enough lines, and the last ones are the same. */
  lemma CutIsHarmless(content: string, begin: nat, newline: nat, n: nat)
    requires begin + newline < |content| && content[begin + newline] == '\n' && Count(content[begin..]) > n
    requires forall j | 0 <= j < newline :: content[begin..][j] != '\n'
    ensures Last(Split(content), n) == Last(Split(content[begin + newline + 1..]), n)
  {
    hide Split, Count, Last;
    var front, rest := content[..begin + newline], content[begin + newline + 1..];
    assert content == front + "\n" + rest;
    SplitAfterNewline(front, rest);
    CutCount(content[begin..], newline);
    assert content[begin..][newline + 1..] == rest;
    LinesCoverNewlines(rest);
    LastOfConcat(Split(front + "\n"), Split(rest), n);
  }
}
