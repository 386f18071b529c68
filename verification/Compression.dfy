/** Replacing the older half of a conversation by a summary (internal/assistant/compression.go), in memory
    and in the store (internal/storage/sqlite/messages_summary.go). */
module Compression {
  /** A message; id 0 marks the summary of a history in memory, which carries no row number. */
  datatype Message = Message(id: int, role: string, content: string)

  /** What the summarising model answers. */
  datatype Asked = Failed | Summary(content: string)

  /** Everything outside: the model, the heading of a summary, whether the store can replace rows at all,
      and whether its transaction commits. */
  datatype World = World(ask: string -> Asked, prefix: string, replacer: bool, commits: bool)

  // ---------- the store ----------

  ghost predicate Ordered(rows: seq<Message>) {
    && (forall i | 0 <= i < |rows| :: rows[i].id > 0)
    && (forall i, j | 0 <= i < j < |rows| :: rows[i].id < rows[j].id)
  }

  /** The rows with a greater number. */
  function After(rows: seq<Message>, last: int): seq<Message> {
    if rows == [] then []
    else (if rows[0].id > last then [rows[0]] else []) + After(rows[1..], last)
  }

  lemma {:induction false} AfterIsTheRest(rows: seq<Message>, k: nat)
    requires Ordered(rows) && k < |rows|
    ensures After(rows, rows[k].id) == rows[k + 1..]
  {
    var last := rows[k].id;
    if k == 0 {
      AllAfter(rows[1..], last);
    } else {
      AfterIsTheRest(rows[1..], k - 1);
    }
  }

  lemma {:induction false} AllAfter(rows: seq<Message>, last: int)
    requires forall i | 0 <= i < |rows| :: rows[i].id > last
    ensures After(rows, last) == rows
  {
    if rows != [] { AllAfter(rows[1..], last); }
  }

  /** The newest rows, oldest first; limit 0 reads them all. */
  function Latest(rows: seq<Message>, limit: nat): seq<Message> {
    if limit == 0 || |rows| <= limit then rows else rows[|rows| - limit..]
  }

  class Store {
    var rows: seq<Message>

    constructor ()
      ensures rows == []
    {
      rows := [];
    }

    method GetHistory(limit: nat) returns (history: seq<Message>)
      requires Ordered(rows)
      ensures history == Latest(rows, limit) && Mirrors(history, rows)
    {
      history := Latest(rows, limit);
    }

    /** One transaction: delete the rows up to `last`, insert the summary under that number. */
    method ReplaceMessagesWithSummary(last: int, content: string, commits: bool) returns (ok: bool)
      modifies this
      ensures ok == (content != "" && last > 0 && commits)
      ensures rows == if ok then [Message(last, "assistant", content)] + After(old(rows), last) else old(rows)
    {
      if content == "" || last <= 0 { return false; }
      if !commits { return false; }
      rows := [Message(last, "assistant", content)] + After(rows, last);
      return true;
    }
  }

  // ---------- what a compression is ----------

  /** A history in memory shows the newest rows of the store; only a summary lacks its number. */
  ghost predicate Mirrors(h: seq<Message>, rows: seq<Message>) {
    && |h| <= |rows|
    && forall i | 0 <= i < |h| :: var row := rows[|rows| - |h| + i];
         && h[i].role == row.role && h[i].content == row.content
         && (h[i].id == row.id || (i == 0 && h[0].id == 0 && |h| == |rows|))
  }

  function Old(h: seq<Message>): seq<Message> { h[..|h| / 2] }

  function Transcript(h: seq<Message>): string {
    if h == [] then "" else Line(h[0]) + Transcript(h[1..])
  }

  function Line(m: Message): string { m.role + ": " + m.content + "\n" }

  lemma Regroup(a: string, b: string, c: string)
    ensures a + (b + c) == (a + b) + c
  {
  }

  lemma {:induction false} TranscriptAppends(a: seq<Message>, b: seq<Message>)
    ensures Transcript(a + b) == Transcript(a) + Transcript(b)
  {
    hide Line;
    if a == [] {
      assert a + b == b;
    } else {
      TranscriptAppends(a[1..], b);
      assert (a + b)[0] == a[0] && (a + b)[1..] == a[1..] + b;
      Regroup(Line(a[0]), Transcript(a[1..]), Transcript(b));
    }
  }

  lemma LineBetween(h: seq<Message>, i: nat)
    requires i < |h|
    ensures Transcript(h) == Transcript(h[..i]) + Line(h[i]) + Transcript(h[i + 1..])
  {
    hide Line;
    assert h == h[..i] + h[i..];
    TranscriptAppends(h[..i], h[i..]);
    assert h[i..][0] == h[i] && h[i..][1..] == h[i + 1..];
    Regroup(Transcript(h[..i]), Line(h[i]), Transcript(h[i + 1..]));
  }

  /** The transcript holds every message, in order: who wrote it, and what it says. */
  lemma TranscriptHolds(h: seq<Message>, i: nat)
    requires i < |h|
    ensures Transcript(h) ==
            Transcript(h[..i]) + (h[i].role + ": " + h[i].content + "\n") + Transcript(h[i + 1..])
  {
    LineBetween(h, i);
    hide Transcript;
  }

  /** The summary in front of the newer half. */
  function Squeeze(h: seq<Message>, content: string): seq<Message> {
    if |h| < 4 then h else [Message(0, "assistant", content)] + h[|h| / 2..]
  }

  /** Unicode white space. */
  predicate IsSpace(c: char) {
    var u := c as int;
    || 9 <= u <= 13 || u == 32 || u == 0x85 || u == 0xA0 || u == 0x1680 || 0x2000 <= u <= 0x200A
    || u == 0x2028 || u == 0x2029 || u == 0x202F || u == 0x205F || u == 0x3000
  }

  predicate Blank(s: string) { forall c | c in s :: IsSpace(c) }

  lemma NotBlankNotEmpty(s: string)
    requires !Blank(s)
    ensures s != ""
  {
  }

  /** Four fifths of the window, rounded down, are used up. */
  predicate Full(lastInput: int, window: int) {
    window > 0 && lastInput > 0 && lastInput >= window * 4 / 5
  }

  /** Rounding down lets it be one token short. */
  lemma FullMeans(lastInput: int, window: int)
    ensures Full(lastInput, window) <==> window > 0 && lastInput > 0 && 5 * (lastInput + 1) > 4 * window
  {
  }

  predicate Usable(w: World, h: seq<Message>) {
    var asked := w.ask(Transcript(Old(h)));
    asked.Summary? && w.replacer && !Blank(asked.content)
  }

  predicate Succeeds(w: World, h: seq<Message>) { |h| >= 4 && Usable(w, h) && w.commits }

  predicate Errs(w: World, h: seq<Message>) {
    |h| >= 4 && (w.ask(Transcript(Old(h))).Failed? || (Usable(w, h) && !w.commits))
  }

  function SummaryText(w: World, h: seq<Message>): string
    requires w.ask(Transcript(Old(h))).Summary?
  {
    w.prefix + w.ask(Transcript(Old(h))).content
  }

  /** The rows after a compression of the history they mirror. */
  function Condensed(rows: seq<Message>, h: seq<Message>, content: string): seq<Message>
    requires 4 <= |h| <= |rows|
  {
    var keep := |rows| - (|h| - |h| / 2);
    [Message(rows[keep - 1].id, "assistant", content)] + rows[keep..]
  }

  // ---------- the operations ----------

  /** The last message replaced stands for a real row: at least two are replaced, and only the first can be
      an unnumbered summary. */
  lemma LastReplaced(h: seq<Message>, rows: seq<Message>) returns (k: nat)
    requires Ordered(rows) && Mirrors(h, rows) && |h| >= 4
    ensures k == |rows| - |h| + |h| / 2 - 1 && k < |rows| && h[|h| / 2 - 1].id == rows[k].id > 0
  {
    var half := |h| / 2 - 1;
    k := |rows| - |h| + half;
    assert half > 0 && h[half].id == rows[k].id;
  }

  /** The row number handed to the store is always a real one, and what the store makes of it is what the
      history in memory becomes. */
  lemma SplitHasRow(h: seq<Message>, rows: seq<Message>, content: string)
    requires Ordered(rows) && Mirrors(h, rows) && |h| >= 4
    ensures h[|h| / 2 - 1].id > 0
    ensures [Message(h[|h| / 2 - 1].id, "assistant", content)] + After(rows, h[|h| / 2 - 1].id)
            == Condensed(rows, h, content)
    ensures Ordered(Condensed(rows, h, content)) && Mirrors(Squeeze(h, content), Condensed(rows, h, content))
  {
    hide Ordered, Mirrors, After;
    var k := LastReplaced(h, rows);
    MirrorsFit(h, rows);
    AfterIsTheRest(rows, k);
    CondensedOrdered(h, rows, content);
    ReplacedMirrors(h, rows, |h| / 2, k + 1, rows[k].id, content);
  }

  lemma MirrorsFit(h: seq<Message>, rows: seq<Message>)
    requires Mirrors(h, rows)
    ensures |h| <= |rows|
  {
  }

  lemma CondensedOrdered(h: seq<Message>, rows: seq<Message>, content: string)
    requires Ordered(rows) && 4 <= |h| <= |rows|
    ensures Ordered(Condensed(rows, h, content))
  {
    var keep := |rows| - (|h| - |h| / 2);
    var next := Condensed(rows, h, content);
    assert forall i | 0 <= i < |next| :: next[i].id == rows[keep + i - 1].id;
  }

  lemma ReplacedMirrors(h: seq<Message>, rows: seq<Message>, half: nat, keep: nat, id: int, content: string)
    requires Mirrors(h, rows) && 1 <= half <= |h| && keep <= |rows| && |rows| - keep == |h| - half
    ensures Mirrors([Message(0, "assistant", content)] + h[half..], [Message(id, "assistant", content)] + rows[keep..])
  {
    var small := [Message(0, "assistant", content)] + h[half..];
    var next := [Message(id, "assistant", content)] + rows[keep..];
    forall i | 1 <= i < |small|
      ensures small[i].role == next[i].role && small[i].content == next[i].content && small[i].id == next[i].id
    {
      assert small[i] == h[half + i - 1] && next[i] == rows[keep + i - 1];
      assert keep + i - 1 == |rows| - |h| + (half + i - 1);
    }
  }

  method CompressIfNeeded(store: Store, w: World, window: int, history: seq<Message>, lastInput: int)
    returns (result: seq<Message>, err: bool)
    requires Ordered(store.rows) && Mirrors(history, store.rows)
    modifies store
    ensures Ordered(store.rows) && Mirrors(result, store.rows)
    ensures err == (Full(lastInput, window) && Errs(w, history))
    ensures err ==> result == history && store.rows == old(store.rows)
    ensures Full(lastInput, window) && Succeeds(w, history) ==>
              && result == Squeeze(history, SummaryText(w, history))
              && store.rows == Condensed(old(store.rows), history, SummaryText(w, history))
    ensures !(Full(lastInput, window) && Succeeds(w, history)) ==> result == history && store.rows == old(store.rows)
    ensures Full(lastInput, window) && |history| >= 4 ==>
              var half := |history| / 2; var asked := w.ask(Transcript(history[..half]));
              if asked.Failed? then err
              else if !w.replacer || Blank(asked.content) then !err && result == history
              else if !w.commits then err
              else !err && result == [Message(0, "assistant", w.prefix + asked.content)] + history[half..]
  {
    hide After, Ordered, Mirrors, Blank, Condensed;
    if window <= 0 || lastInput <= 0 { return history, false; }
    var threshold := window * 4 / 5;
    if lastInput < threshold { return history, false; }
    if |history| < 4 { return history, false; }
    var splitIdx := |history| / 2;
    var oldMessages, keepMessages := history[..splitIdx], history[splitIdx..];
    var text := WriteTranscript(oldMessages);
    var asked := w.ask(text);
    if asked.Failed? { return history, true; }
    var summary := w.prefix + asked.content;
    if !w.replacer || Blank(asked.content) { return history, false; }
    NotBlankNotEmpty(asked.content);
    SplitHasRow(history, store.rows, summary);
    var ok := store.ReplaceMessagesWithSummary(oldMessages[|oldMessages| - 1].id, summary, w.commits);
    if !ok { return history, true; }
    result := [Message(0, "assistant", summary)];
    result := result + keepMessages;
    err := false;
  }

  method WriteTranscript(messages: seq<Message>) returns (text: string)
    ensures text == Transcript(messages)
  {
    text := "";
    for i := 0 to |messages|
      invariant text + Transcript(messages[i..]) == Transcript(messages)
    {
      text := text + (messages[i].role + ": " + messages[i].content + "\n");
      assert messages[i..][1..] == messages[i + 1..];
    }
  }

  /** The request under construction carries the history without its newest message, which it asks. */
  class Request {
    var history: seq<Message>

    constructor (history: seq<Message>)
      ensures this.history == history
    {
      this.history := history;
    }
  }

  function Earlier(h: seq<Message>): seq<Message> {
    if |h| > 1 then h[..|h| - 1] else []
  }

  /** Recovery from an overflow: whatever happens, the request goes on carrying all but the newest
      message, and compression is tried however few tokens the last call used. */
  method ForceCompressRequest(store: Store, w: World, window: int, req: Request, history: seq<Message>)
    returns (result: seq<Message>)
    requires Ordered(store.rows) && Mirrors(history, store.rows) && req.history == Earlier(history)
    modifies store, req
    ensures Ordered(store.rows) && Mirrors(result, store.rows) && req.history == Earlier(result)
    ensures result == if window > 0 && Succeeds(w, history) then Squeeze(history, SummaryText(w, history)) else history
    ensures result == history ==> store.rows == old(store.rows)
    ensures result != history ==> store.rows == Condensed(old(store.rows), history, SummaryText(w, history))
  {
    var compressed, err := CompressIfNeeded(store, w, window, history, window * 2);
    if err { return history; }
    if |compressed| > 1 {
      req.history := compressed[..|compressed| - 1];
    } else {
      req.history := [];
    }
    return compressed;
  }

  datatype Count = Count(compressed: nat) | TooFew(messages: nat) | NotLoaded | NotCompressed

  /** The manual command: what it reports is exactly what happened, although it only compares lengths. */
  method CompressNow(store: Store, w: World, window: int, loads: bool) returns (c: Count)
    requires Ordered(store.rows)
    modifies store
    ensures Ordered(store.rows)
    ensures c == if !loads then NotLoaded
                 else if |old(store.rows)| < 4 then TooFew(|old(store.rows)|)
                 else if window > 0 && Errs(w, old(store.rows)) then NotCompressed
                 else if window > 0 && Succeeds(w, old(store.rows)) then Count(|old(store.rows)| / 2)
                 else Count(0)
    ensures store.rows == if c.Count? && c.compressed > 0
                          then Condensed(old(store.rows), old(store.rows), SummaryText(w, old(store.rows)))
                          else old(store.rows)
  {
    hide Ordered, Mirrors, Errs, Succeeds;
    if !loads { return NotLoaded; }
    var history := store.GetHistory(0);
    if |history| < 4 { return TooFew(|history|); }
    var splitIdx := |history| / 2;
    var compressed, err := CompressIfNeeded(store, w, window, history, window * 2);
    if err { return NotCompressed; }
    if |compressed| == |history| { return Count(0); }
    return Count(splitIdx);
  }

  // ---------- what compressing comes to ----------

  /** A compression of what was read covers every row it deletes if and only if everything was read: a
      turn reads the 50 newest rows, so in a longer conversation the rows before them are deleted
      without having been summarised. */
  lemma ReadingLimitLosesRows(rows: seq<Message>, limit: nat, content: string)
    requires Ordered(rows) && |Latest(rows, limit)| >= 4
    ensures (forall m | m in rows ::
               m in Old(Latest(rows, limit)) || m in Condensed(rows, Latest(rows, limit), content))
            <==> (limit == 0 || |rows| <= limit)
  {
    var h := Latest(rows, limit);
    var keep := |rows| - (|h| - |h| / 2);
    if h == rows {
      forall m | m in rows ensures m in Old(h) || m in Condensed(rows, h, content) {
        var i :| 0 <= i < |rows| && rows[i] == m;
        if i >= keep { assert rows[keep..][i - keep] == m; } else { assert Old(h)[i] == m; }
      }
    } else {
      assert forall j | 0 <= j < |Old(h)| :: Old(h)[j] == rows[|rows| - |h| + j];
      assert forall j | 1 <= j < |Condensed(rows, h, content)| :: Condensed(rows, h, content)[j] == rows[keep + j - 1];
      assert rows[0] in rows && rows[0] !in Old(h) && rows[0] !in Condensed(rows, h, content);
    }
  }

  /** The rows a turn reads (internal/assistant/assistant.go, line 31). */
  const HISTORY_LIMIT := 50

  function Numbered(n: nat): seq<Message> { seq(n, i requires 0 <= i < n => Message(i + 1, "user", "m")) }

  /** It happens from 51 rows on. */
  lemma FiftyOneRowsLoseOne(content: string)
    ensures Ordered(Numbered(51)) && |Latest(Numbered(51), HISTORY_LIMIT)| == 50
    ensures !(forall m | m in Numbered(51) ::
                m in Old(Latest(Numbered(51), HISTORY_LIMIT))
                || m in Condensed(Numbered(51), Latest(Numbered(51), HISTORY_LIMIT), content))
  {
    ReadingLimitLosesRows(Numbered(51), HISTORY_LIMIT, content);
  }

  function Pow2(k: nat): nat { if k == 0 then 1 else 2 * Pow2(k - 1) }

  /** The least exponent whose power of two is not below n. */
  function CeilLog2(n: nat): (k: nat)
    ensures n >= 1 ==> Pow2(k) >= n
    ensures k > 0 ==> Pow2(k - 1) < n
  {
    if n <= 1 then 0 else 1 + CeilLog2(n - n / 2)
  }

  /** Successive compressions with given summaries. */
  function Repeated(h: seq<Message>, contents: seq<string>): seq<Message>
    decreases |contents|
  {
    if contents == [] then h else Repeated(Squeeze(h, contents[0]), contents[1..])
  }

  /** A compression halves what lies above two messages, rounding up, and keeps the two newest. */
  lemma SqueezeHalves(h: seq<Message>, content: string)
    requires |h| >= 3
    ensures |Squeeze(h, content)| >= 3
    ensures |Squeeze(h, content)| - 2 == (|h| - 2) - (|h| - 2) / 2
    ensures Squeeze(h, content)[|Squeeze(h, content)| - 2..] == h[|h| - 2..]
    ensures |h| >= 4 ==> CeilLog2(|h| - 2) == 1 + CeilLog2(|Squeeze(h, content)| - 2)
    ensures |h| >= 4 && |Squeeze(h, content)| == 3 ==>
              CeilLog2(|h| - 2) == 1 && Squeeze(h, content) == [Message(0, "assistant", content)] + h[|h| - 2..]
  {
  }

  /** Repeated compression ends at the latest summary and the two newest messages, after exactly
      CeilLog2(|h| - 2) rounds: not one earlier, and further rounds change nothing. */
  lemma {:induction false} FixedPoint(h: seq<Message>, contents: seq<string>)
    requires |h| >= 4
    decreases |contents|
    ensures |Repeated(h, contents)| == 3 <==> |contents| >= CeilLog2(|h| - 2)
    ensures |contents| >= CeilLog2(|h| - 2) ==>
              Repeated(h, contents) == [Message(0, "assistant", contents[CeilLog2(|h| - 2) - 1])] + h[|h| - 2..]
  {
    hide Squeeze, CeilLog2;
    SqueezeHalves(h, "");
    if contents != [] {
      var next := Squeeze(h, contents[0]);
      SqueezeHalves(h, contents[0]);
      if |next| >= 4 {
        FixedPoint(next, contents[1..]);
      } else {
        Settled(next, contents[1..]);
      }
    }
  }

  lemma {:induction false} Settled(h: seq<Message>, contents: seq<string>)
    requires |h| < 4
    decreases |contents|
    ensures Repeated(h, contents) == h
  {
    if contents != [] { Settled(h, contents[1..]); }
  }
}
