/**
 * The scheduled check: `search_article_position`, which runs one parser
 * session and closes it whatever happens, and the `check_position` task,
 * which reads the article and the query from the sheet, searches, writes the
 * outcome back and reports a status.
 *
 * The browser and the spreadsheet are the models of the Parser and Sheets
 * modules; what they will run into (which step of the browser start-up
 * raises, what each result page shows, which spreadsheet call raises) is an
 * input, and so is the time stamp the search takes from the clock.
 */
module Tasks {
  import opened Wrappers
  import opened Parser
  import Sheets

  const MissingConfigMessage: string := "Отсутствуют данные артикула или поискового запроса в таблице"
  const WriteFailedMessage: string := "Ошибка при записи данных в Google Sheets"

  /** What unpacking the bare `None` of a capped search into two names raises. */
  const UnpackNoneMessage: string := "cannot unpack non-iterable NoneType object"

  const NotFoundText: string := "Не найден"

  /** What the search will run into: browser start-up, the result pages, the clock. */
  datatype SearchWorld = SearchWorld(init: InitFault, pages: seq<PageObservation>, timestamp: string,
                                     limits: Limits)

  /** Which spreadsheet steps raise: building the client, reading A1:B1, the write. */
  datatype SheetFaults = SheetFaults(clientError: Option<string>, configReadFails: bool,
                                     writeFault: Sheets.WriteFault)

  /** The outward steps of one check, in order. */
  datatype Effect =
    | ReadConfig                                                        // A1:B1 is read
    | SearchRan(searchQuery: string, article: string)                   // a parser session searches
    | Write(timestamp: string, article: string, value: Sheets.PositionValue) // add_position_data is called

  /** The dictionary the task returns, by its 'status'. */
  datatype TaskResult =
    | Success(article: string, searchQuery: string, position: nat, timestamp: string)
    | NotFound(article: string, searchQuery: string, timestamp: string)
    | Error(message: string)

  /**
   * A check over the modelled inputs: the task's result, or None when the
   * search passed over every observed page and would go on; the effects so
   * far; the events of the parser session (none when no search ran); and
   * the sheet's rows afterwards.
   */
  datatype TaskRun = TaskRun(result: Option<TaskResult>, effects: seq<Effect>, session: seq<SessionEvent>,
                             sheet: seq<Sheets.Row>)

  // ---------------------------------------------------------------------
  // search_article_position: one session, closed in `finally`
  // ---------------------------------------------------------------------

  /** The session of a fresh parser: initialize, search, and close once the search has ended. */
  function SessionSpec(world: SearchWorld, searchQuery: string, article: string): ScanResult {
    var init := world.init;
    if !init.InitOk? then
      ScanResult(Finished(Raised(init.message)),
                 InitEvents(init, false) + [CloseCalled] + (if init.LaunchFails? then [] else [BrowserClosed]))
    else
      var scan := Scan(world.pages, searchQuery, article, world.timestamp, world.limits);
      ScanResult(scan.run, InitEvents(init, false) + scan.events
                           + (if scan.run.Finished? then [CloseCalled, BrowserClosed] else []))
  }

  /** Runs a fresh parser's session; `close()` runs whether the search returned or raised. */
  method SearchArticlePosition(world: SearchWorld, searchQuery: string, article: string)
    returns (run: Run, events: seq<SessionEvent>)
    ensures run == SessionSpec(world, searchQuery, article).run
    ensures events == SessionSpec(world, searchQuery, article).events
  {
    var parser := new WildberriesParser();
    var raised := parser.Initialize(world.init);
    if raised.Some? {
      parser.Close();
      return Finished(Raised(raised.value)), parser.log;
    }
    run := parser.SearchArticlePosition(world.init, world.pages, searchQuery, article, world.timestamp, world.limits);
    if run.Finished? {
      parser.Close();
    }
    events := parser.log;
  }

  /** How many times e occurs in the events. */
  function Occurrences(events: seq<SessionEvent>, e: SessionEvent): nat
    decreases |events|
  {
    if events == [] then 0
    else (if events[0] == e then 1 else 0) + Occurrences(events[1..], e)
  }

  lemma OccurrencesAppend(a: seq<SessionEvent>, b: seq<SessionEvent>, e: SessionEvent)
    ensures Occurrences(a + b, e) == Occurrences(a, e) + Occurrences(b, e)
    decreases |a|
  {
    if a == [] {
      assert a + b == b;
    } else {
      assert (a + b)[1..] == a[1..] + b;
      OccurrencesAppend(a[1..], b, e);
    }
  }

  /** Events that only open and read result pages. */
  predicate OnlyVisits(events: seq<SessionEvent>) {
    forall i :: 0 <= i < |events| ==> events[i].Goto? || events[i].Extract?
  }

  /** The loop by itself only opens and reads pages. */
  lemma {:induction false} ScanOnlyVisits(pages: seq<PageObservation>, searchQuery: string, article: string,
                                          timestamp: string, limits: Limits, k: nat, offset: nat)
    ensures OnlyVisits(ScanFrom(pages, searchQuery, article, timestamp, limits, k, offset).events)
    decreases |pages| - k
  {
    if k < |pages| && pages[k].Cards? {
      var ids := pages[k].ids;
      var visit := [Goto(searchQuery, k + 1), Extract(k + 1)];
      var rest := ScanFrom(pages, searchQuery, article, timestamp, limits, k + 1, offset + |ids|);
      ScanOnlyVisits(pages, searchQuery, article, timestamp, limits, k + 1, offset + |ids|);
      var all := visit + rest.events;
      forall i | 0 <= i < |all|
        ensures all[i].Goto? || all[i].Extract?
      {
        if i >= 2 {
          assert all[i] == rest.events[i - 2];
        }
      }
    }
  }

  lemma NoCloseAmongVisits(events: seq<SessionEvent>)
    requires OnlyVisits(events)
    ensures Occurrences(events, CloseCalled) == 0 && Occurrences(events, BrowserClosed) == 0
    decreases |events|
  {
    if events != [] {
      assert OnlyVisits(events[1..]) by {
        forall i | 0 <= i < |events[1..]|
          ensures events[1..][i].Goto? || events[1..][i].Extract?
        {
          assert events[1..][i] == events[i + 1];
        }
      }
      NoCloseAmongVisits(events[1..]);
    }
  }

  /** `close()` occurs once, and only browser closes follow it. */
  predicate ClosedOnceAtEnd(events: seq<SessionEvent>) {
    && Occurrences(events, CloseCalled) == 1
    && exists i :: 0 <= i < |events| && events[i] == CloseCalled
                   && forall j :: i < j < |events| ==> events[j] == BrowserClosed
  }

  /** How many times `initialize` itself closes the browser of a fresh parser. */
  lemma InitCloses(init: InitFault)
    ensures Occurrences(InitEvents(init, false), CloseCalled) == 0
    ensures Occurrences(InitEvents(init, false), BrowserClosed)
            == if init.ContextFails? || init.PageFails? then 1 else 0
  {
    match init
    case InitOk => OccurrencesOfThree(Launch, NewContext, NewPage);
    case LaunchFails(_) =>
    case ContextFails(_) => OccurrencesOfTwo(Launch, BrowserClosed);
    case PageFails(_) => OccurrencesOfThree(Launch, NewContext, BrowserClosed);
  }

  function Indicator(x: SessionEvent, e: SessionEvent): nat {
    if x == e then 1 else 0
  }

  lemma OccurrencesOfTwo(x: SessionEvent, y: SessionEvent)
    ensures forall e :: Occurrences([x, y], e) == Indicator(x, e) + Indicator(y, e)
  {
    forall e
      ensures Occurrences([x, y], e) == Indicator(x, e) + Indicator(y, e)
    {
      assert [x, y][1..] == [y];
      assert [y][1..] == [];
      assert Occurrences([y], e) == Indicator(y, e) + Occurrences([], e);
    }
  }

  lemma OccurrencesOfThree(x: SessionEvent, y: SessionEvent, z: SessionEvent)
    ensures forall e :: Occurrences([x, y, z], e) == Indicator(x, e) + Indicator(y, e) + Indicator(z, e)
  {
    forall e
      ensures Occurrences([x, y, z], e) == Indicator(x, e) + Indicator(y, e) + Indicator(z, e)
    {
      assert [x, y, z][1..] == [y, z];
      assert [y, z][1..] == [z];
      assert [z][1..] == [];
      assert Occurrences([z], e) == Indicator(z, e) + Occurrences([], e);
      assert Occurrences([y, z], e) == Indicator(y, e) + Occurrences([z], e);
    }
  }

  /** Calling `close()` after events without one, then closing the browser |tail| times. */
  lemma CloseThenBrowser(head: seq<SessionEvent>, tail: seq<SessionEvent>)
    requires Occurrences(head, CloseCalled) == 0
    requires |tail| <= 1 && forall j :: 0 <= j < |tail| ==> tail[j] == BrowserClosed
    ensures ClosedOnceAtEnd(head + [CloseCalled] + tail)
    ensures Occurrences(head + [CloseCalled] + tail, BrowserClosed) == Occurrences(head, BrowserClosed) + |tail|
  {
    var all := head + [CloseCalled] + tail;
    OccurrencesAppend(head + [CloseCalled], tail, CloseCalled);
    OccurrencesAppend(head + [CloseCalled], tail, BrowserClosed);
    OccurrencesAppend(head, [CloseCalled], CloseCalled);
    OccurrencesAppend(head, [CloseCalled], BrowserClosed);
    assert [CloseCalled][1..] == [];
    if tail != [] {
      assert tail[1..] == [];
    }
    assert all[|head|] == CloseCalled;
    assert forall j :: |head| < j < |all| ==> all[j] == tail[j - |head| - 1];
  }

  /**
   * Once the search has ended, `close()` has been called exactly once, as
   * the last step of the parser; the browser has been closed once after a
   * normal start, never when it did not launch, and twice when start-up
   * failed after the launch (by `initialize` and again by `close()`, which
   * finds the browser still set).
   */
  lemma CloseOnceAfterSearch(world: SearchWorld, searchQuery: string, article: string)
    ensures var s := SessionSpec(world, searchQuery, article);
            s.run.Finished? ==>
              && ClosedOnceAtEnd(s.events)
              && Occurrences(s.events, BrowserClosed)
                 == (if world.init.InitOk? then 1 else if world.init.LaunchFails? then 0 else 2)
  {
    var init := world.init;
    var head := InitEvents(init, false);
    InitCloses(init);
    if !init.InitOk? {
      var tail: seq<SessionEvent> := if init.LaunchFails? then [] else [BrowserClosed];
      CloseThenBrowser(head, tail);
    } else {
      var scan := Scan(world.pages, searchQuery, article, world.timestamp, world.limits);
      if scan.run.Finished? {
        assert Occurrences(scan.events, CloseCalled) == 0 && Occurrences(scan.events, BrowserClosed) == 0 by {
          ScanOnlyVisits(world.pages, searchQuery, article, world.timestamp, world.limits, 0, 0);
          NoCloseAmongVisits(scan.events);
        }
        OccurrencesAppend(head, scan.events, CloseCalled);
        OccurrencesAppend(head, scan.events, BrowserClosed);
        CloseThenBrowser(head + scan.events, [BrowserClosed]);
        assert head + scan.events + [CloseCalled, BrowserClosed]
               == head + scan.events + [CloseCalled] + [BrowserClosed];
      }
    }
  }

  /** The check, as a function of the sheet's rows and what the calls run into. */
  function TaskSpec(sheet: seq<Sheets.Row>, faults: SheetFaults, world: SearchWorld): TaskRun {
    if faults.clientError.Some? then TaskRun(Some(Error(faults.clientError.value)), [], [], sheet)
    else
      var config := Sheets.ConfigData(if faults.configReadFails then Sheets.FetchRaised
                                      else Sheets.Fetched(Sheets.ConfigRange(sheet)));
      var article, searchQuery := config.0, config.1;
      if !Sheets.Present(article) || !Sheets.Present(searchQuery) then TaskRun(Some(Error(MissingConfigMessage)), [ReadConfig], [], sheet)
      else
        var searched := [ReadConfig, SearchRan(searchQuery.value, article.value)];
        var session := SessionSpec(world, searchQuery.value, article.value);
        match session.run
        case OutOfPages => TaskRun(None, searched, session.events, sheet)
        case Finished(Raised(message)) => TaskRun(Some(Error(message)), searched, session.events, sheet)
        case Finished(Returned(NoneValue)) => TaskRun(Some(Error(UnpackNoneMessage)), searched, session.events, sheet)
        case Finished(Returned(Pair(position, timestamp))) =>
          var value := if position.Some? then Sheets.Position(position.value) else Sheets.Marker(NotFoundText);
          var write := Sheets.AddRow(sheet, timestamp, article.value, value, faults.writeFault);
          var after := Sheets.ApplyUpdates(sheet, write.updates);
          var effects := searched + [Write(timestamp, article.value, value)];
          if position.None? then
            TaskRun(Some(NotFound(article.value, searchQuery.value, timestamp)), effects, session.events, after)
          else if write.ok then
            TaskRun(Some(Success(article.value, searchQuery.value, position.value, timestamp)), effects,
                    session.events, after)
          else TaskRun(Some(Error(WriteFailedMessage)), effects, session.events, after)
  }

  /**
   * The task body: builds the client, reads the config, searches, then
   * writes the position or the "not found" marker. Any exception becomes an
   * error status carrying its message.
   */
  method CheckPosition(service: Sheets.Spreadsheet, spreadsheetId: string, faults: SheetFaults,
                       world: SearchWorld)
    returns (result: Option<TaskResult>, effects: seq<Effect>, session: seq<SessionEvent>)
    modifies service
    ensures var spec := TaskSpec(old(service.rows), faults, world);
            result == spec.result && effects == spec.effects && session == spec.session
            && service.rows == spec.sheet
    ensures var spec := TaskSpec(old(service.rows), faults, world);
            |spec.effects| < 3 ==> service.history == old(service.history)
    ensures var spec := TaskSpec(old(service.rows), faults, world);
            |spec.effects| == 3 ==>
              var w := spec.effects[2];
              w.Write? && service.history == old(service.history)
                          + Sheets.AddRow(old(service.rows), w.timestamp, w.article, w.value, faults.writeFault).updates
  {
    session := [];
    if faults.clientError.Some? {
      return Some(Error(faults.clientError.value)), [], session;
    }
    var client := new Sheets.GoogleSheetsClient(spreadsheetId, service);
    var sheet := service.rows;
    var config := client.GetConfigData(faults.configReadFails);
    Sheets.ConfigOfSheet(sheet);
    var article, searchQuery := config.0, config.1;
    effects := [ReadConfig];
    if !Sheets.Present(article) || !Sheets.Present(searchQuery) {
      return Some(Error(MissingConfigMessage)), effects, session;
    }
    effects := effects + [SearchRan(searchQuery.value, article.value)];
    var run;
    run, session := SearchArticlePosition(world, searchQuery.value, article.value);
    match run {
      case OutOfPages =>
        result := None;
      case Finished(Raised(message)) =>
        result := Some(Error(message));
      case Finished(Returned(NoneValue)) =>
        result := Some(Error(UnpackNoneMessage));
      case Finished(Returned(Pair(position, timestamp))) =>
        if position.Some? {
          effects := effects + [Write(timestamp, article.value, Sheets.Position(position.value))];
          var ok := client.AddPositionData(timestamp, article.value, Sheets.Position(position.value), faults.writeFault);
          if ok {
            result := Some(Success(article.value, searchQuery.value, position.value, timestamp));
          } else {
            result := Some(Error(WriteFailedMessage));
          }
        } else {
          effects := effects + [Write(timestamp, article.value, Sheets.Marker(NotFoundText))];
          var _ := client.AddPositionData(timestamp, article.value, Sheets.Marker(NotFoundText), faults.writeFault);
          result := Some(NotFound(article.value, searchQuery.value, timestamp));
        }
    }
  }
}
