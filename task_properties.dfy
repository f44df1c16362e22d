/**
 * What the `check_position` task guarantees: which status it reports, when,
 * and what it has written to the sheet by then.
 */
module TaskProperties {
  import opened Wrappers
  import opened Parser
  import opened Sheets
  import opened SearchProperties
  import opened Tasks

  /** The article and query the task reads: cells A1 and B1 as shown, or nothing when the read raises. */
  function ConfigCells(sheet: seq<Row>, faults: SheetFaults): (Option<string>, Option<string>) {
    if faults.configReadFails then (None, None) else (ShownCell(sheet, 0), ShownCell(sheet, 1))
  }

  /**
   * The early exits: a client that cannot be built gives its error and does
   * nothing else; a missing or empty article or query gives the "missing
   * data" error after the read alone.
   */
  lemma EarlyExits(sheet: seq<Row>, faults: SheetFaults, world: SearchWorld)
    ensures faults.clientError.Some? ==> TaskSpec(sheet, faults, world) == TaskRun(Some(Error(faults.clientError.value)), [], [], sheet)
    ensures var config := ConfigCells(sheet, faults);
            faults.clientError.None? && !(Present(config.0) && Present(config.1)) ==>
              TaskSpec(sheet, faults, world) == TaskRun(Some(Error(MissingConfigMessage)), [ReadConfig], [], sheet)
  {
    ConfigOfSheet(sheet);
  }

  /**
   * Every check has the shape read, search, write, cut short somewhere: the
   * search uses the article and query read, at most one row is written, and
   * only after a search; the sheet keeps every row it had, and its A1 and B1
   * are unchanged.
   */
  lemma EffectsInOrder(sheet: seq<Row>, faults: SheetFaults, world: SearchWorld)
    ensures var t := TaskSpec(sheet, faults, world);
            var config := ConfigCells(sheet, faults);
            && |t.effects| <= 3
            && (forall i :: 0 <= i < |t.effects| ==> (t.effects[i].Write? <==> i == 2))
            && (|t.effects| >= 1 ==> t.effects[0] == ReadConfig)
            && (|t.effects| >= 2 ==> Present(config.0) && Present(config.1)
                                     && t.effects[1] == SearchRan(config.1.value, config.0.value))
            && (|t.effects| == 3 ==> t.effects[2].article == config.0.value)
            && (t.sheet != sheet ==> |t.effects| == 3)
            && sheet <= t.sheet
            && ConfigData(Fetched(ConfigRange(t.sheet))) == ConfigData(Fetched(ConfigRange(sheet)))
  {
    var t := TaskSpec(sheet, faults, world);
    ConfigOfSheet(sheet);
    if |t.effects| == 3 {
      var article := t.effects[2].article;
      var timestamp := t.effects[2].timestamp;
      var value := t.effects[2].value;
      AddRowAppendsOnly(sheet, timestamp, article, value, faults.writeFault);
      ConfigSurvivesAddRow(sheet, timestamp, article, value, faults.writeFault);
    }
  }

  /**
   * A success status means: the client was built, A1 and B1 hold the article
   * and query, the browser started, the article was found on a visited page
   * at the reported position (items on earlier pages plus its index on that
   * page, stamped with the search's clock), and that row was written after
   * the sheet's last row.
   */
  lemma SuccessMeansFoundAndWritten(sheet: seq<Row>, faults: SheetFaults, world: SearchWorld,
                                    article: string, searchQuery: string, position: nat, timestamp: string)
    requires TaskSpec(sheet, faults, world).result == Some(Success(article, searchQuery, position, timestamp))
    ensures faults.clientError.None? && ConfigCells(sheet, faults) == (Some(article), Some(searchQuery))
    ensures article != "" && searchQuery != ""
    ensures world.init.InitOk? && timestamp == world.timestamp
    ensures exists k: nat :: Reached(world.pages, article, world.limits, k) && world.pages[k].Cards?
              && FirstIndexOf(world.pages[k].ids, article).Some?
              && position == ItemsBefore(world.pages, k) + FirstIndexOf(world.pages[k].ids, article).value
    ensures var t := TaskSpec(sheet, faults, world);
            && t.effects == [ReadConfig, SearchRan(searchQuery, article), Write(timestamp, article, Position(position))]
            && sheet <= t.sheet
            && |t.sheet| == DataRowNumber(|sheet|)
            && t.sheet[|t.sheet| - 1] == [timestamp, article, DecimalText(position)]
  {
    ConfigOfSheet(sheet);
    var scan := Scan(world.pages, searchQuery, article, world.timestamp, world.limits);
    assert scan.run == Finished(Returned(Pair(Some(position), timestamp)));
    FoundOnlyOnMatchingPage(world.pages, searchQuery, article, world.timestamp, world.limits, position, timestamp);
    AddRowAppendsOnly(sheet, timestamp, article, Position(position), faults.writeFault);
  }

  /** Conversely, a found article whose row is written gives the success status. */
  lemma FoundAndWrittenMeansSuccess(sheet: seq<Row>, faults: SheetFaults, world: SearchWorld, position: nat)
    requires faults.clientError.None?
    requires var config := ConfigCells(sheet, faults); Present(config.0) && Present(config.1)
    requires world.init.InitOk?
    requires var config := ConfigCells(sheet, faults);
             Scan(world.pages, config.1.value, config.0.value, world.timestamp, world.limits).run
             == Finished(Returned(Pair(Some(position), world.timestamp)))
    requires var config := ConfigCells(sheet, faults);
             AddRow(sheet, world.timestamp, config.0.value, Position(position), faults.writeFault).ok
    ensures var config := ConfigCells(sheet, faults);
            TaskSpec(sheet, faults, world).result
            == Some(Success(config.0.value, config.1.value, position, world.timestamp))
  {
    ConfigOfSheet(sheet);
  }

  /**
   * A found position whose write fails gives the write error; the position
   * row was still handed to the sheet.
   */
  lemma FoundButWriteFailsIsError(sheet: seq<Row>, faults: SheetFaults, world: SearchWorld, position: nat)
    requires faults.clientError.None?
    requires var config := ConfigCells(sheet, faults); Present(config.0) && Present(config.1)
    requires world.init.InitOk?
    requires var config := ConfigCells(sheet, faults);
             Scan(world.pages, config.1.value, config.0.value, world.timestamp, world.limits).run
             == Finished(Returned(Pair(Some(position), world.timestamp)))
    requires var config := ConfigCells(sheet, faults);
             !AddRow(sheet, world.timestamp, config.0.value, Position(position), faults.writeFault).ok
    ensures var config := ConfigCells(sheet, faults);
            var article, searchQuery := config.0.value, config.1.value;
            var t := TaskSpec(sheet, faults, world);
            && t.result == Some(Error(WriteFailedMessage))
            && t.effects == [ReadConfig, SearchRan(searchQuery, article), Write(world.timestamp, article, Position(position))]
            && t.sheet == ApplyUpdates(sheet, AddRow(sheet, world.timestamp, article, Position(position), faults.writeFault).updates)
  {
    ConfigOfSheet(sheet);
  }

  /**
   * A search that ends without a position gives not_found, after exactly one
   * write: the marker row, whatever that write runs into. When the write
   * succeeds the marker row is the sheet's new last row.
   */
  lemma NoPositionWritesMarker(sheet: seq<Row>, faults: SheetFaults, world: SearchWorld)
    requires faults.clientError.None?
    requires var config := ConfigCells(sheet, faults); Present(config.0) && Present(config.1)
    requires world.init.InitOk?
    requires var config := ConfigCells(sheet, faults);
             Scan(world.pages, config.1.value, config.0.value, world.timestamp, world.limits).run
             == Finished(Returned(Pair(None, world.timestamp)))
    ensures var config := ConfigCells(sheet, faults);
            var article, searchQuery := config.0.value, config.1.value;
            var t := TaskSpec(sheet, faults, world);
            var write := AddRow(sheet, world.timestamp, article, Marker(NotFoundText), faults.writeFault);
            && t.result == Some(NotFound(article, searchQuery, world.timestamp))
            && t.effects == [ReadConfig, SearchRan(searchQuery, article), Write(world.timestamp, article, Marker(NotFoundText))]
            && t.sheet == ApplyUpdates(sheet, write.updates)
            && (write.ok ==> |t.sheet| == DataRowNumber(|sheet|)
                             && t.sheet[|t.sheet| - 1] == [world.timestamp, article, NotFoundText])
  {
    ConfigOfSheet(sheet);
    var config := ConfigCells(sheet, faults);
    AddRowAppendsOnly(sheet, world.timestamp, config.0.value, Marker(NotFoundText), faults.writeFault);
  }

  /**
   * A reached page that shows "nothing found", times out or raises ends the
   * check in not_found with the marker row written.
   */
  lemma PageWithoutCardsGivesNotFound(sheet: seq<Row>, faults: SheetFaults, world: SearchWorld, k: nat)
    requires faults.clientError.None?
    requires var config := ConfigCells(sheet, faults); Present(config.0) && Present(config.1)
    requires world.init.InitOk?
    requires var config := ConfigCells(sheet, faults);
             Reached(world.pages, config.0.value, world.limits, k) && !world.pages[k].Cards?
    ensures var config := ConfigCells(sheet, faults);
            var article, searchQuery := config.0.value, config.1.value;
            var t := TaskSpec(sheet, faults, world);
            && t.result == Some(NotFound(article, searchQuery, world.timestamp))
            && t.effects == [ReadConfig, SearchRan(searchQuery, article), Write(world.timestamp, article, Marker(NotFoundText))]
  {
    var config := ConfigCells(sheet, faults);
    if world.pages[k].NoResults? {
      NoResultsEndsSearch(world.pages, config.1.value, config.0.value, world.timestamp, world.limits, k);
    } else {
      ErrorsLookLikeNoResults(world.pages, config.1.value, config.0.value, world.timestamp, world.limits, k);
    }
    NoPositionWritesMarker(sheet, faults, world);
  }

  /**
   * The parser session of a check: none before the search; once the task
   * reports a status after a search, `close()` has run exactly once, as the
   * session's last step, and the browser was closed once after a normal
   * start; while the search would go on, `close()` has not run.
   */
  lemma SessionClosedOnceSearched(sheet: seq<Row>, faults: SheetFaults, world: SearchWorld)
    ensures var t := TaskSpec(sheet, faults, world);
            && (|t.effects| < 2 ==> t.session == [])
            && (t.result.Some? && |t.effects| >= 2 ==>
                  && ClosedOnceAtEnd(t.session)
                  && Occurrences(t.session, BrowserClosed)
                     == (if world.init.InitOk? then 1 else if world.init.LaunchFails? then 0 else 2))
            && (t.result.None? ==> Occurrences(t.session, CloseCalled) == 0)
  {
    var t := TaskSpec(sheet, faults, world);
    if |t.effects| >= 2 {
      var q, a := t.effects[1].searchQuery, t.effects[1].article;
      EffectsInOrder(sheet, faults, world);
      ConfigOfSheet(sheet);
      CloseOnceAfterSearch(world, q, a);
      if t.result.None? {
        var scan := Scan(world.pages, q, a, world.timestamp, world.limits);
        ScanOnlyVisits(world.pages, q, a, world.timestamp, world.limits, 0, 0);
        assert world.init.InitOk? && scan.run.OutOfPages?;
        assert t.session == [Launch, NewContext, NewPage] + scan.events;
        NoCloseAmongVisits(scan.events);
        OccurrencesAppend([Launch, NewContext, NewPage], scan.events, CloseCalled);
        OccurrencesOfThree(Launch, NewContext, NewPage);
        assert Occurrences([Launch, NewContext, NewPage], CloseCalled) == 0;
      }
    }
  }

  /**
   * A not_found status means the search ended without a position and the
   * marker row was handed to the sheet; whether that write succeeded does
   * not change the status.
   */
  lemma NotFoundWritesMarker(sheet: seq<Row>, faults: SheetFaults, world: SearchWorld,
                             article: string, searchQuery: string, timestamp: string)
    requires TaskSpec(sheet, faults, world).result == Some(NotFound(article, searchQuery, timestamp))
    ensures ConfigCells(sheet, faults) == (Some(article), Some(searchQuery))
    ensures world.init.InitOk? && timestamp == world.timestamp
    ensures Scan(world.pages, searchQuery, article, world.timestamp, world.limits).run
            == Finished(Returned(Pair(None, timestamp)))
    ensures TaskSpec(sheet, faults, world).effects
            == [ReadConfig, SearchRan(searchQuery, article), Write(timestamp, article, Marker(NotFoundText))]
    ensures forall fault: WriteFault ::
              TaskSpec(sheet, faults.(writeFault := fault), world).result == Some(NotFound(article, searchQuery, timestamp))
  {
    ConfigOfSheet(sheet);
    ReturnedPairCarriesTimestamp(world.pages, searchQuery, article, world.timestamp, world.limits, None, timestamp);
  }

  /**
   * With safe search on, when the first max(N, 1) pages show cards without
   * the article, the search hands back a bare None whose unpacking fails: the
   * task reports an error and writes nothing.
   */
  lemma CapEndsInErrorWithoutWrite(sheet: seq<Row>, faults: SheetFaults, world: SearchWorld)
    requires faults.clientError.None?
    requires var config := ConfigCells(sheet, faults); Present(config.0) && Present(config.1)
    requires world.init.InitOk? && world.limits.safeSearch
    requires Max(world.limits.maxSafeSearch, 1) <= |world.pages|
    requires var config := ConfigCells(sheet, faults);
             forall j :: 0 <= j < Max(world.limits.maxSafeSearch, 1) ==> Unmatched(world.pages[j], config.0.value)
    ensures var config := ConfigCells(sheet, faults);
            TaskSpec(sheet, faults, world)
            == TaskRun(Some(Error(UnpackNoneMessage)), [ReadConfig, SearchRan(config.1.value, config.0.value)],
                       SessionSpec(world, config.1.value, config.0.value).events, sheet)
  {
    ConfigOfSheet(sheet);
    var config := ConfigCells(sheet, faults);
    CapReached(world.pages, config.1.value, config.0.value, world.timestamp, world.limits);
  }

  /** A browser that fails to start gives an error with that failure's message, and nothing is written. */
  lemma StartupFailureIsError(sheet: seq<Row>, faults: SheetFaults, world: SearchWorld)
    requires faults.clientError.None?
    requires var config := ConfigCells(sheet, faults); Present(config.0) && Present(config.1)
    requires !world.init.InitOk?
    ensures var config := ConfigCells(sheet, faults);
            TaskSpec(sheet, faults, world)
            == TaskRun(Some(Error(world.init.message)), [ReadConfig, SearchRan(config.1.value, config.0.value)],
                       SessionSpec(world, config.1.value, config.0.value).events, sheet)
  {
    ConfigOfSheet(sheet);
  }
}
