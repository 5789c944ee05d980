/** The paginated fetch loop (internal/loaders/mcp_fetcher.go). The remote tool, the time budget and
    the file writer are parameters; rows are of any type. */
module PagedFetch {
  import opened EventTypes

  const DEFAULT_MAX_ROWS := 10_000
  const DEFAULT_PAGE_SIZE := 100

  datatype Mode = Offset | Cursor | Unpaged

  /** `sendsOffset`, `sendsLimit`, `sendsCursor` and `readsCursor` say whether the corresponding
      parameter or path name is configured. */
  datatype Config = Config(mode: Mode, pageSize: int, maxRows: int, nonJson: bool,
                           sendsOffset: bool, sendsLimit: bool, sendsCursor: bool, readsCursor: bool)

  datatype Request = Request(offset: Option<nat>, limit: Option<nat>, cursor: Option<string>)

  /** `next` is the string at the cursor path of the reply, if there is one. */
  datatype Reply<Row> = CallError | ToolError | ParseError | Page(items: seq<Row>, next: Option<string>)

  datatype Outcome<Row> = Rejected | Failed | Loaded(rows: seq<Row>, rowCount: nat, partial: bool, pages: nat)

  function PageSize(c: Config): (n: nat)
    ensures n > 0 && (c.pageSize > 0 ==> n == c.pageSize) && (c.pageSize <= 0 ==> n == 100)
  {
    if c.pageSize <= 0 then DEFAULT_PAGE_SIZE else c.pageSize
  }

  function MaxRows(c: Config): (n: nat)
    ensures n > 0 && (c.maxRows > 0 ==> n == c.maxRows) && (c.maxRows <= 0 ==> n == 10_000)
  {
    if c.maxRows <= 0 then DEFAULT_MAX_ROWS else c.maxRows
  }

  /** The pagination arguments of the n-th call. */
  function RequestFor(c: Config, n: nat, cursor: string): Request {
    var limit := if c.sendsLimit then Some(PageSize(c)) else None;
    match c.mode
    case Offset => Request(if c.sendsOffset then Some(n * PageSize(c)) else None, limit, None)
    case Cursor => Request(None, limit, if n > 0 && c.sendsCursor then Some(cursor) else None)
    case Unpaged => Request(None, None, None)
  }

  function Min(a: nat, b: nat): nat {
    if a < b then a else b
  }

  /** The rows [o, o + l) of a dataset, as far as it goes. */
  function Slice<Row>(data: seq<Row>, o: nat, l: nat): seq<Row> {
    data[Min(o, |data|)..Min(o + l, |data|)]
  }

  /** The tool answers every request with an error or with the right rows of `data`; in cursor mode
      the cursor for row o is `enc(o)`, and it is given exactly when more rows remain. */
  ghost predicate Serves<Row(!new)>(tool: (nat, Request) -> Reply<Row>, c: Config, data: seq<Row>, enc: nat -> string) {
    match c.mode
    case Offset =>
      && c.sendsOffset && c.sendsLimit
      && forall n, o, l :: RightItems(tool(n, Request(Some(o), Some(l), None)), data, o, l)
    case Cursor =>
      && c.sendsLimit && c.sendsCursor && c.readsCursor
      && (forall o :: enc(o) != "")
      && (forall n, l :: RightPage(tool(n, Request(None, Some(l), None)), data, 0, l, enc))
      && (forall n, o, l :: RightPage(tool(n, Request(None, Some(l), Some(enc(o)))), data, o, l, enc))
    case Unpaged => false
  }

  ghost predicate RightItems<Row>(reply: Reply<Row>, data: seq<Row>, o: nat, l: nat) {
    reply.Page? ==> reply.items == Slice(data, o, l)
  }

  ghost predicate RightPage<Row>(reply: Reply<Row>, data: seq<Row>, o: nat, l: nat, enc: nat -> string) {
    RightItems(reply, data, o, l) && (reply.Page? ==> reply.next == if o + l < |data| then Some(enc(o + l)) else None)
  }

  /** Nothing fails and time does not run out. */
  ghost predicate Reliable<Row(!new)>(tool: (nat, Request) -> Reply<Row>, writes: nat -> bool, closes: bool) {
    closes && (forall n, q :: tool(n, q).Page?) && forall n: nat :: writes(n)
  }

  /** The n-th request of a run over a served dataset asks for the n-th page. */
  lemma RightReply<Row(!new)>(tool: (nat, Request) -> Reply<Row>, c: Config, data: seq<Row>, enc: nat -> string,
                              n: nat, cursor: string)
    requires Serves(tool, c, data, enc)
    requires c.mode.Cursor? && n > 0 ==> cursor == enc(n * PageSize(c))
    ensures var reply := tool(n, RequestFor(c, n, cursor));
            && RightItems(reply, data, n * PageSize(c), PageSize(c))
            && (c.mode.Cursor? ==> RightPage(reply, data, n * PageSize(c), PageSize(c), enc))
  {
    if c.mode.Offset? {
      assert RightItems(tool(n, Request(Some(n * PageSize(c)), Some(PageSize(c)), None)), data, n * PageSize(c),
                        PageSize(c));
    } else if n == 0 {
      assert RightPage(tool(n, Request(None, Some(PageSize(c)), None)), data, 0, PageSize(c), enc);
    } else {
      assert RightPage(tool(n, Request(None, Some(PageSize(c)), Some(enc(n * PageSize(c))))), data, n * PageSize(c),
                       PageSize(c), enc);
    }
  }

  /** Appending the n-th page, cut to the rows still allowed, extends the prefix. */
  lemma PageExtends<Row>(data: seq<Row>, start: nat, size: nat, max: nat, items: seq<Row>)
    requires start < max && size > 0 && start <= |data| && items == Slice(data, start, size)
    ensures var cut := if |items| > max - start then items[..max - start] else items;
            && data[..start] + cut == data[..Min(Min(start + size, max), |data|)]
            && (|cut| < size ==> start + |cut| == Min(max, |data|))
            && |cut| <= size
  {
  }

  /** What one reply does to the loop: give up, stop with what there is, or write a page and finish or
      go on. */
  datatype Move<Row> = GiveUp | Stop | Finish(rows: seq<Row>) | More(rows: seq<Row>, cursor: string)

  function Advance<Row>(c: Config, reply: Reply<Row>, wrote: bool, rows: seq<Row>, cursor: string): Move<Row>
    requires |rows| < MaxRows(c)
  {
    if !reply.Page? then GiveUp
    else if reply.items == [] then Stop
    else
      var remaining := MaxRows(c) - |rows|;
      var items := if |reply.items| > remaining then reply.items[..remaining] else reply.items;
      if !wrote then GiveUp
      else if |rows| + |items| >= MaxRows(c) then Finish(rows + items)
      else if |items| < PageSize(c) then Finish(rows + items)
      else if !c.mode.Cursor? then More(rows + items, cursor)
      else if !c.readsCursor || reply.next.None? || reply.next.value == "" then Finish(rows + items)
      else More(rows + items, reply.next.value)
  }

  lemma AdvanceBounds<Row>(c: Config, reply: Reply<Row>, wrote: bool, rows: seq<Row>, cursor: string, page: nat)
    requires page * PageSize(c) <= |rows| < MaxRows(c)
    ensures var m := Advance(c, reply, wrote, rows, cursor);
            && (m.Finish? ==> |m.rows| <= MaxRows(c))
            && (m.More? ==> (page + 1) * PageSize(c) <= |m.rows| < MaxRows(c) && |m.rows| > |rows|)
  {
    assert (page + 1) * PageSize(c) == page * PageSize(c) + PageSize(c);
  }

  /** Over a served dataset, stopping and finishing are complete, and going on keeps a prefix. */
  lemma {:induction false} AdvanceServed<Row>(c: Config, reply: Reply<Row>, wrote: bool, rows: seq<Row>,
                                              cursor: string, data: seq<Row>, enc: nat -> string)
    requires |rows| < MaxRows(c) && |rows| <= |data| && rows == data[..|rows|]
    requires RightItems(reply, data, |rows|, PageSize(c))
    requires c.mode.Cursor? ==> RightPage(reply, data, |rows|, PageSize(c), enc) && c.readsCursor
    requires c.mode.Cursor? ==> forall o :: enc(o) != ""
    ensures var m := Advance(c, reply, wrote, rows, cursor);
            && (m.Stop? ==> rows == data[..Min(|data|, MaxRows(c))])
            && (m.Finish? ==> m.rows == data[..Min(|data|, MaxRows(c))])
            && (m.More? ==> |m.rows| == |rows| + PageSize(c) <= |data| && m.rows == data[..|m.rows|])
            && (m.More? && c.mode.Cursor? ==> m.cursor == enc(|m.rows|))
  {
    if reply.Page? && reply.items != [] {
      PageExtends(data, |rows|, PageSize(c), MaxRows(c), reply.items);
    }
  }

  /** One round of the loop: the bounds for any tool, and over a served dataset what one reply gives. */
  lemma PageStep<Row(!new)>(c: Config, tool: (nat, Request) -> Reply<Row>, data: seq<Row>, enc: nat -> string,
                            wrote: bool, rows: seq<Row>, cursor: string, page: nat)
    requires page * PageSize(c) <= |rows| < MaxRows(c)
    requires Serves(tool, c, data, enc) ==>
               && |rows| == page * PageSize(c) <= |data| && rows == data[..|rows|]
               && (c.mode.Cursor? && page > 0 ==> cursor == enc(|rows|))
    ensures var m := Advance(c, tool(page, RequestFor(c, page, cursor)), wrote, rows, cursor);
            && (m.Finish? ==> |m.rows| <= MaxRows(c))
            && (m.More? ==> (page + 1) * PageSize(c) <= |m.rows| < MaxRows(c) && |m.rows| > |rows|)
            && (Serves(tool, c, data, enc) ==>
                  && (m.Stop? ==> rows == data[..Min(|data|, MaxRows(c))])
                  && (m.Finish? ==> m.rows == data[..Min(|data|, MaxRows(c))])
                  && (m.More? ==> |m.rows| == (page + 1) * PageSize(c) <= |data| && m.rows == data[..|m.rows|])
                  && (m.More? && c.mode.Cursor? ==> m.cursor == enc(|m.rows|)))
  {
    var reply := tool(page, RequestFor(c, page, cursor));
    AdvanceBounds(c, reply, wrote, rows, cursor, page);
    if Serves(tool, c, data, enc) {
      RightReply(tool, c, data, enc, page, cursor);
      AdvanceServed(c, reply, wrote, rows, cursor, data, enc);
      assert (page + 1) * PageSize(c) == page * PageSize(c) + PageSize(c);
    }
  }

  /** The loop itself. For any tool: at most maxRows rows, at most ceil(maxRows / pageSize) calls, and
      a partial result only after at least one page. Over a served dataset: every result is a prefix,
      and it is data[..min(|data|, maxRows)] unless something failed or time ran out. */
  method FetchPaginated<Row(!new)>(c: Config, tool: (nat, Request) -> Reply<Row>, expired: nat -> bool,
                                   writes: nat -> bool, closes: bool,
                                   ghost data: seq<Row>, ghost enc: nat -> string)
    returns (r: Outcome<Row>, calls: nat)
    ensures r.Rejected? <==> c.mode.Cursor? && c.nonJson
    ensures calls == 0 || (calls - 1) * PageSize(c) < MaxRows(c)
    ensures r.Loaded? ==> |r.rows| == r.rowCount <= MaxRows(c)
    ensures r.Loaded? && r.partial ==> r.rowCount > 0
    ensures r.Failed? && closes ==> calls == 1 && (!tool(0, RequestFor(c, 0, "")).Page? || !writes(0))
    ensures Serves(tool, c, data, enc) && r.Loaded? ==> r.rows <= data
    ensures Serves(tool, c, data, enc) && r.Loaded? && r.partial ==> r.rowCount == r.pages * PageSize(c)
    ensures Serves(tool, c, data, enc) && r.Loaded? && !r.partial && (forall n: nat :: !expired(n)) ==>
              r.rows == data[..Min(|data|, MaxRows(c))]
    ensures Reliable(tool, writes, closes) && !r.Rejected? ==> r.Loaded? && !r.partial
  {
    calls := 0;
    if c.mode.Cursor? && c.nonJson {
      return Rejected, 0;
    }
    var rows: seq<Row> := [];
    var cursor := "";
    ghost var served, timely := Serves(tool, c, data, enc), true;
    var page, done := 0, false;
    while !done
      invariant calls == 0 || (calls - 1) * PageSize(c) < MaxRows(c)
      invariant |rows| <= MaxRows(c)
      invariant page == 0 ==> cursor == "" && calls <= 1
      invariant !done ==> calls == page && page * PageSize(c) <= |rows| < MaxRows(c)
      invariant served ==> |rows| <= |data| && rows == data[..|rows|]
      invariant !done && served ==> |rows| == page * PageSize(c)
      invariant !done && served && c.mode.Cursor? && page > 0 ==> cursor == enc(|rows|)
      invariant done && served && timely ==> rows == data[..Min(|data|, MaxRows(c))]
      invariant !timely ==> exists n: nat :: expired(n)
      decreases !done, MaxRows(c) - |rows|
    {
      if expired(page) {
        done, timely := true, false;
      } else {
        var reply := tool(page, RequestFor(c, page, cursor));
        calls := calls + 1;
        PageStep(c, tool, data, enc, writes(page), rows, cursor, page);
        match Advance(c, reply, writes(page), rows, cursor)
        case GiveUp =>
          return if |rows| > 0 then Loaded(rows, |rows|, true, page) else Failed, calls;
        case Stop =>
          done := true;
        case Finish(all) =>
          rows, page, done := all, page + 1, true;
        case More(all, next) =>
          rows, page, cursor := all, page + 1, next;
      }
    }
    if !closes {
      return Failed, calls;
    }
    return Loaded(rows, |rows|, false, page), calls;
  }
}
