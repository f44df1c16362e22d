/**
 * `CheckService.run_single_check`: the same read, search and write as the
 * scheduled task, run once on start-up, which reports nothing to its caller
 * (it returns None and only logs what went wrong).
 */
module Service {
  import opened Wrappers
  import opened Parser
  import Sheets
  import opened Tasks
  import TaskProperties

  /**
   * A single check over the modelled inputs: whether it returned (false when
   * the search passed over every observed page and would go on), its
   * effects, the events of the parser session, and the sheet's rows
   * afterwards.
   */
  datatype CheckRun = CheckRun(returned: bool, effects: seq<Effect>, session: seq<SessionEvent>,
                               sheet: seq<Sheets.Row>)

  /** The single check, as a function of the sheet's rows and what the calls run into. */
  function SingleCheckSpec(sheet: seq<Sheets.Row>, faults: SheetFaults, world: SearchWorld): CheckRun {
    if faults.clientError.Some? then CheckRun(true, [], [], sheet)
    else
      var config := Sheets.ConfigData(if faults.configReadFails then Sheets.FetchRaised
                                      else Sheets.Fetched(Sheets.ConfigRange(sheet)));
      if !Sheets.Present(config.0) || !Sheets.Present(config.1) then CheckRun(true, [ReadConfig], [], sheet)
      else
        var article, searchQuery := config.0.value, config.1.value;
        var searched := [ReadConfig, SearchRan(searchQuery, article)];
        var session := SessionSpec(world, searchQuery, article);
        var run := session.run;
        if run.OutOfPages? then CheckRun(false, searched, session.events, sheet)
        else if run.completion.Raised? || run.completion.value.NoneValue? then
          CheckRun(true, searched, session.events, sheet)
        else
          var timestamp := run.completion.value.timestamp;
          var position := run.completion.value.position;
          var value := if position.Some? then Sheets.Position(position.value) else Sheets.Marker(NotFoundText);
          var write := Sheets.AddRow(sheet, timestamp, article, value, faults.writeFault);
          CheckRun(true, searched + [Write(timestamp, article, value)], session.events,
                   Sheets.ApplyUpdates(sheet, write.updates))
  }

  /**
   * The service body: builds the client, reads the config, searches, writes
   * the position or the "not found" marker, and swallows any exception.
   */
  method RunSingleCheck(service: Sheets.Spreadsheet, spreadsheetId: string, faults: SheetFaults,
                        world: SearchWorld)
    returns (returned: bool, effects: seq<Effect>, session: seq<SessionEvent>)
    modifies service
    ensures var spec := SingleCheckSpec(old(service.rows), faults, world);
            returned == spec.returned && effects == spec.effects && session == spec.session
            && service.rows == spec.sheet
    ensures var spec := SingleCheckSpec(old(service.rows), faults, world);
            |spec.effects| < 3 ==> service.history == old(service.history)
    ensures var spec := SingleCheckSpec(old(service.rows), faults, world);
            |spec.effects| == 3 ==>
              var w := spec.effects[2];
              w.Write? && service.history == old(service.history)
                          + Sheets.AddRow(old(service.rows), w.timestamp, w.article, w.value, faults.writeFault).updates
  {
    session := [];
    if faults.clientError.Some? {
      return true, [], session;
    }
    var client := new Sheets.GoogleSheetsClient(spreadsheetId, service);
    var config := client.GetConfigData(faults.configReadFails);
    Sheets.ConfigOfSheet(service.rows);
    var article, searchQuery := config.0, config.1;
    effects := [ReadConfig];
    if !Sheets.Present(article) || !Sheets.Present(searchQuery) {
      return true, effects, session;
    }
    effects := effects + [SearchRan(searchQuery.value, article.value)];
    var run;
    run, session := SearchArticlePosition(world, searchQuery.value, article.value);
    returned := true;
    match run {
      case OutOfPages =>
        returned := false;
      case Finished(Raised(_)) =>
      case Finished(Returned(NoneValue)) =>
      case Finished(Returned(Pair(position, timestamp))) =>
        var value := if position.Some? then Sheets.Position(position.value) else Sheets.Marker(NotFoundText);
        effects := effects + [Write(timestamp, article.value, value)];
        var _ := client.AddPositionData(timestamp, article.value, value, faults.writeFault);
    }
  }

  /**
   * The single check does to the sheet exactly what the scheduled task does,
   * step for step, and returns exactly when the task reports a status.
   */
  lemma SameEffectsAsTask(sheet: seq<Sheets.Row>, faults: SheetFaults, world: SearchWorld)
    ensures var single := SingleCheckSpec(sheet, faults, world);
            var task := TaskSpec(sheet, faults, world);
            && single.effects == task.effects
            && single.session == task.session
            && single.sheet == task.sheet
            && (single.returned <==> task.result.Some?)
  {
  }

  /**
   * Which row the single check writes for a search that returned a pair: the
   * position row when the article was found, the "not found" marker row
   * otherwise; it returns either way, whatever the write runs into.
   */
  lemma SingleCheckWritesOutcome(sheet: seq<Sheets.Row>, faults: SheetFaults, world: SearchWorld,
                                 position: Option<nat>)
    requires faults.clientError.None?
    requires var config := TaskProperties.ConfigCells(sheet, faults);
             Sheets.Present(config.0) && Sheets.Present(config.1)
    requires world.init.InitOk?
    requires var config := TaskProperties.ConfigCells(sheet, faults);
             Scan(world.pages, config.1.value, config.0.value, world.timestamp, world.limits).run
             == Finished(Returned(Pair(position, world.timestamp)))
    ensures var config := TaskProperties.ConfigCells(sheet, faults);
            var article, searchQuery := config.0.value, config.1.value;
            var value := if position.Some? then Sheets.Position(position.value) else Sheets.Marker(NotFoundText);
            var single := SingleCheckSpec(sheet, faults, world);
            && single.returned
            && single.effects == [ReadConfig, SearchRan(searchQuery, article), Write(world.timestamp, article, value)]
            && single.sheet == Sheets.ApplyUpdates(sheet, Sheets.AddRow(sheet, world.timestamp, article, value, faults.writeFault).updates)
  {
    Sheets.ConfigOfSheet(sheet);
  }

  /**
   * Once the single check returns after a search, `close()` has run exactly
   * once, as the last step of the parser session; without a search there is
   * no session.
   */
  lemma SingleCheckClosesSession(sheet: seq<Sheets.Row>, faults: SheetFaults, world: SearchWorld)
    ensures var single := SingleCheckSpec(sheet, faults, world);
            && (|single.effects| < 2 ==> single.session == [])
            && (single.returned && |single.effects| >= 2 ==> ClosedOnceAtEnd(single.session))
            && (!single.returned ==> Occurrences(single.session, CloseCalled) == 0)
  {
    SameEffectsAsTask(sheet, faults, world);
    TaskProperties.SessionClosedOnceSearched(sheet, faults, world);
  }
}
