/**
 * The launch page controller `PortalApp`: the state it keeps (the polling
 * flag and the session type catalog), what it writes to the page (the session
 * list, the launch form's drop-downs and hidden groups, the alerts it raises)
 * and the calls it makes to the session and core services. Every event
 * handler is one synchronous step; a handler that starts a network request
 * records the call, and the request's completion is a separate step that is
 * given the finished request.
 */
module PortalController {
  import opened Wrappers
  import opened LaunchForm
  import opened SessionList
  import opened Dispatch

  /** The drop-downs of the launch form, named by their element ids. */
  datatype SelectId = SpSessionType | SpSoftwareStack | SpCores | SpMemory

  const AllSelects: set<SelectId> := {SpSessionType, SpSoftwareStack, SpCores, SpMemory}

  /** The calls the controller makes to code outside this model, in the order made. */
  datatype Call =
    | SetServiceURLs                      // portalSessions.setServiceURLs(portalCore.sessionServiceURL)
    | LoadSessionList                     // portalSessions.loadSessionList()
    | PollSessionList(intervalMs: nat)    // portalSessions.pollSessionList(interval)
    | GetTypeMap                          // $.getJSON of the type catalog file
    | GetImageList(sessionType: string)   // GET of the images endpoint for a type
    | GetCurrentContext                   // GET of the context endpoint
    | DefaultSessionName(sessionType: string)  // portalSessions.getDefaultSessionName(type)
    | PostSessionRequest(form: FormData)  // POST of the launch form
    | DeleteSession(id: string)           // portalSessions.deleteSession(id)

  /** How the promise returned by pollSessionList ends. */
  datatype PollResult = PollFulfilled(finalState: string) | PollFailed(message: string)

  /** The error and information reports the controller raises, in the order raised. */
  datatype Alert =
    | ServiceUnavailable                                          // the session service URL was not found
    | ListLoadError(report: ListErrorReport, request: Response)  // session list could not be loaded
    | SessionListError                                            // polling ended in failure
    | AjaxError(request: Response)                                // portalCore.handleAjaxError
    | NoImagesFound                                               // empty image list
    | ContainerImagesProblem(request: Response)                   // image list GET failed
    | ContextProblem(request: Response)                           // context GET failed

  /** What the controller has written to the page. */
  datatype Page = Page(
    sessionList: seq<SessionView>,
    launchFormShown: bool,
    hiddenFields: set<string>,
    selects: map<SelectId, seq<OptionEl>>,
    alerts: seq<Alert>)

  /** The interval the list-done handler polls with. */
  const PollIntervalMs: nat := 1000

  /** The calls setLaunchFormForType makes for a type: images, context, default name. */
  function LaunchFormCalls(sessionType: string): seq<Call> {
    [GetImageList(sessionType), GetCurrentContext, DefaultSessionName(sessionType)]
  }

  class PortalApp {
    const baseURL: string
    /** Meant to let only one polling run exist at a time. */
    var isPolling: bool
    /** The type catalog; None until the catalog file has been loaded. */
    var sessionTypeMap: Option<TypeMap>
    var page: Page
    var calls: seq<Call>

    /** The controller invariant: the polling flag is never up, and the page state is well formed. */
    ghost predicate Valid()
      reads this
    {
      && !isPolling
      && page.hiddenFields <= FieldSet
      && page.selects.Keys == AllSelects
    }

    constructor (baseURL: string)
      ensures Valid()
      ensures this.baseURL == baseURL && !isPolling && sessionTypeMap == None && calls == []
      ensures page == Page([], false, {}, map id | id in AllSelects :: [], [])
    {
      this.baseURL := baseURL;
      isPolling := false;
      sessionTypeMap := None;
      page := Page([], false, {}, map id | id in AllSelects :: [], []);
      calls := [];
    }

    // ------------ Session list ------------

    /** checkForSessions: asks the session service for the session list. */
    method CheckForSessions()
      modifies this`calls
      ensures calls == old(calls) + [LoadSessionList]
    {
      calls := calls + [LoadSessionList];
    }

    /** The service URLs are known: hand them to the session module, then look for sessions. */
    method OnServiceURLOK()
      modifies this`calls
      ensures calls == old(calls) + [SetServiceURLs, LoadSessionList]
    {
      calls := calls + [SetServiceURLs];
      CheckForSessions();
    }

    /** The session service URL could not be found: report the page as unavailable. */
    method OnServiceURLFail()
      requires Valid()
      modifies this`page
      ensures Valid()
      ensures page == old(page).(alerts := old(page).alerts + [ServiceUnavailable])
    {
      page := page.(alerts := page.alerts + [ServiceUnavailable]);
    }

    /** populateSessionList: rebuilds the session list, one item per session, in order. */
    method PopulateSessionList(sessions: seq<Session>)
      requires Valid()
      modifies this`page
      ensures Valid()
      ensures page == old(page).(sessionList := RenderSessions(baseURL, sessions))
    {
      var items: seq<SessionView> := [];
      for k := 0 to |sessions|
        invariant |items| == k
        invariant forall i :: 0 <= i < k ==> items[i] == ViewOf(baseURL, sessions[i])
      {
        items := items + [ViewOf(baseURL, sessions[k])];
      }
      assert items == RenderSessions(baseURL, sessions);
      page := page.(sessionList := items);
    }

    /**
     * The session list has loaded: repaint it and request a poll. The guard on
     * isPolling always passes, because the flag is compared rather than set
     * before the poll and is set to false right after the request, before the
     * poll ends; so every list-done event requests a poll.
     */
    method OnLoadSessionListDone(sessions: seq<Session>)
      requires Valid()
      modifies this`page, this`isPolling, this`calls
      ensures Valid()
      ensures !isPolling
      ensures page == old(page).(sessionList := RenderSessions(baseURL, sessions))
      ensures calls == old(calls) + [PollSessionList(PollIntervalMs)]
    {
      PopulateSessionList(sessions);
      if isPolling == false {
        // the flag is compared with true here, not assigned, so it stays false
        calls := calls + [PollSessionList(PollIntervalMs)];
        isPolling := false;
      }
    }

    /** The poll has ended: repaint iff its final state is 'done'; report a failed poll. */
    method OnPollSettled(result: PollResult, sessions: seq<Session>)
      requires Valid()
      modifies this`page
      ensures Valid()
      ensures result.PollFulfilled? && result.finalState == "done" ==>
        page == old(page).(sessionList := RenderSessions(baseURL, sessions))
      ensures result.PollFulfilled? && result.finalState != "done" ==> page == old(page)
      ensures result.PollFailed? ==> page == old(page).(alerts := old(page).alerts + [SessionListError])
    {
      match result
      case PollFulfilled(finalState) =>
        if finalState == "done" {
          PopulateSessionList(sessions);
        }
      case PollFailed(_) =>
        page := page.(alerts := page.alerts + [SessionListError]);
    }

    /** A polling tick has a new list: repaint it. */
    method OnPollingContinue(sessions: seq<Session>)
      requires Valid()
      modifies this`page
      ensures Valid()
      ensures page == old(page).(sessionList := RenderSessions(baseURL, sessions))
    {
      PopulateSessionList(sessions);
    }

    /** The session list could not be loaded: report an authorization issue for 403, an ajax failure otherwise. */
    method OnLoadSessionListError(req: Response)
      requires Valid()
      modifies this`page
      ensures Valid()
      ensures page == old(page).(alerts := old(page).alerts + [ListLoadError(ClassifyListError(req), req)])
    {
      page := page.(alerts := page.alerts + [ListLoadError(ClassifyListError(req), req)]);
    }

    /** The delete button of a session: ask the session service to delete it. */
    method HandleDeleteSession(id: string)
      modifies this`calls
      ensures calls == old(calls) + [DeleteSession(id)]
    {
      calls := calls + [DeleteSession(id)];
    }

    /** A session was deleted: reload the session list. */
    method OnSessionDeleteOK(id: string)
      modifies this`calls
      ensures calls == old(calls) + [LoadSessionList]
    {
      CheckForSessions();
    }

    // ------------ Launch form ------------

    /** populateSelect: empties a drop-down, adds the placeholder, then one option per entry. */
    method PopulateSelect(id: SelectId, optionData: seq<OptionData>, placeholderText: string, defaultOptionID: string)
      requires Valid()
      modifies this`page
      ensures Valid()
      ensures page == old(page).(selects := old(page).selects[id := SelectOptions(placeholderText, optionData, defaultOptionID)])
    {
      page := page.(selects := page.selects[id := []]);
      // `optionalDefault` is never defined, so the placeholder is always added
      page := page.(selects := page.selects[id := page.selects[id] + [PlaceholderOption(placeholderText)]]);
      assert optionData[..0] == [];
      assert page.selects[id] == [PlaceholderOption(placeholderText)];
      assert page.selects == old(page).selects[id := [PlaceholderOption(placeholderText)]];
      assert SelectOptions(placeholderText, [], defaultOptionID) == [PlaceholderOption(placeholderText)];
      for k := 0 to |optionData|
        invariant page == old(page).(selects := old(page).selects[id := SelectOptions(placeholderText, optionData[..k], defaultOptionID)])
      {
        var d := optionData[k];
        var option := OptionEl(d.optionID, "", false, false);
        if d.optionID == defaultOptionID {
          option := option.(selected := true);
        }
        option := option.(text := d.name);
        SelectOptionsSnoc(placeholderText, optionData[..k], d, defaultOptionID);
        assert optionData[..k + 1] == optionData[..k] + [d];
        page := page.(selects := page.selects[id := page.selects[id] + [option]]);
      }
      assert optionData[..|optionData|] == optionData;
    }

    /** setFormFields: hides every launch group not listed for the first catalog type with this name. */
    method SetFormFields(sessionType: string)
      requires Valid() && sessionTypeMap.Some?
      modifies this`page
      ensures Valid()
      ensures page == old(page).(hiddenFields := HiddenFields(sessionTypeMap.value, sessionType))
    {
      var types := sessionTypeMap.value.sessionTypes;
      var formList: seq<string> := [];
      var i := 0;
      while i < |types|
        invariant 0 <= i <= |types|
        invariant forall j :: 0 <= j < i ==> types[j].name != sessionType
        invariant formList == []
      {
        if types[i].name == sessionType {
          formList := types[i].formFields;
          break;
        }
        i := i + 1;
      }
      assert formList == FormListFor(types, sessionType);

      for j := 0 to |LaunchFormFields|
        invariant forall f :: f in LaunchFormFields[..j] ==> (f in page.hiddenFields <==> f !in formList)
        invariant forall f :: f !in LaunchFormFields[..j] ==> (f in page.hiddenFields <==> f in old(page).hiddenFields)
        invariant page == old(page).(hiddenFields := page.hiddenFields)
      {
        var f := LaunchFormFields[j];
        assert LaunchFormFields[..j + 1] == LaunchFormFields[..j] + [f];
        if f !in formList {
          page := page.(hiddenFields := page.hiddenFields + {f});
        } else {
          page := page.(hiddenFields := page.hiddenFields - {f});
        }
      }
      assert LaunchFormFields[..|LaunchFormFields|] == LaunchFormFields;
      assert page.hiddenFields == HiddenFields(sessionTypeMap.value, sessionType);
    }

    /** loadContainerImages: requests the image list for a type. */
    method LoadContainerImages(sessionType: string)
      modifies this`calls
      ensures calls == old(calls) + [GetImageList(sessionType)]
    {
      calls := calls + [GetImageList(sessionType)];
    }

    /** loadContext: requests the context resources. */
    method LoadContext()
      modifies this`calls
      ensures calls == old(calls) + [GetCurrentContext]
    {
      calls := calls + [GetCurrentContext];
    }

    /** setSessionName: asks the session service for a default name for the type. */
    method SetSessionName(sessionType: string)
      modifies this`calls
      ensures calls == old(calls) + [DefaultSessionName(sessionType)]
    {
      calls := calls + [DefaultSessionName(sessionType)];
    }

    /** setLaunchFormForType: reloads images, context and name for a type, and shows its groups. */
    method SetLaunchFormForType(sessionType: string)
      requires Valid() && sessionTypeMap.Some?
      modifies this`page, this`calls
      ensures Valid()
      ensures page == old(page).(hiddenFields := HiddenFields(sessionTypeMap.value, sessionType))
      ensures calls == old(calls) + LaunchFormCalls(sessionType)
    {
      LoadContainerImages(sessionType);
      LoadContext();
      SetSessionName(sessionType);
      SetFormFields(sessionType);
    }

    /** The '+' button: request the type catalog and show the launch form. */
    method HandleAddSession()
      requires Valid()
      modifies this`page, this`calls
      ensures Valid()
      ensures calls == old(calls) + [GetTypeMap]
      ensures page == old(page).(launchFormShown := true)
    {
      calls := calls + [GetTypeMap];
      page := page.(launchFormShown := true);
    }

    /**
     * The type catalog has arrived (loadTypeMap's callback): keep it, fill the
     * type drop-down with one option per type, and set the form up for the
     * catalog's default type.
     */
    method OnTypeMapLoaded(m: TypeMap)
      requires Valid()
      modifies this`sessionTypeMap, this`page, this`calls
      ensures Valid()
      ensures sessionTypeMap == Some(m)
      ensures page == old(page).(selects := old(page).selects[SpSessionType := TypeSelect(m)],
                                 hiddenFields := HiddenFields(m, m.default))
      ensures calls == old(calls) + LaunchFormCalls(m.default)
    {
      sessionTypeMap := Some(m);
      var tempTypeList: seq<OptionData> := [];
      for i := 0 to |m.sessionTypes|
        invariant |tempTypeList| == i
        invariant forall k :: 0 <= k < i ==>
          tempTypeList[k] == OptionData(m.sessionTypes[k].name, m.sessionTypes[k].name)
      {
        tempTypeList := tempTypeList + [OptionData(m.sessionTypes[i].name, m.sessionTypes[i].name)];
      }
      assert tempTypeList == TypeOptions(m.sessionTypes);
      PopulateSelect(SpSessionType, tempTypeList, "select type", m.default);
      SetLaunchFormForType(m.default);
    }

    /** A type was picked in the type drop-down (which has options only once the catalog is loaded). */
    method OnTypeChanged(sessionType: string)
      requires Valid() && sessionTypeMap.Some?
      modifies this`page, this`calls
      ensures Valid()
      ensures page == old(page).(hiddenFields := HiddenFields(sessionTypeMap.value, sessionType))
      ensures calls == old(calls) + LaunchFormCalls(sessionType)
    {
      SetLaunchFormForType(sessionType);
    }

    /**
     * The image list request has finished: a non-empty list fills the stack
     * drop-down with the first image as default; an empty one is reported as
     * no images found; a failed request is reported as a loading problem.
     */
    method OnImageListResponse(req: Response, parse: string -> seq<Image>)
      requires Valid()
      modifies this`page
      ensures Valid()
      ensures req.status == 200 && |parse(req.responseText)| > 0 ==>
        page == old(page).(selects := old(page).selects[SpSoftwareStack := ImageSelect(parse(req.responseText))])
      ensures req.status == 200 && |parse(req.responseText)| == 0 ==>
        page == old(page).(alerts := old(page).alerts + [NoImagesFound])
      ensures req.status != 200 ==>
        page == old(page).(alerts := old(page).alerts + [ContainerImagesProblem(req)])
    {
      var outcome := SettleImageList(req, parse);
      if outcome.Resolved? {
        var imageList := outcome.value;
        if |imageList| > 0 {
          var tempImageList: seq<OptionData> := [];
          for i := 0 to |imageList|
            invariant |tempImageList| == i
            invariant forall k :: 0 <= k < i ==> tempImageList[k] == OptionData(imageList[k].id, imageList[k].id)
          {
            tempImageList := tempImageList + [OptionData(imageList[i].id, imageList[i].id)];
          }
          assert tempImageList == ImageOptions(imageList);
          // the first entry is the default until something else is decided
          PopulateSelect(SpSoftwareStack, tempImageList, "select stack", tempImageList[0].name);
        } else {
          page := page.(alerts := page.alerts + [NoImagesFound]);
        }
      } else if outcome.Rejected? {
        page := page.(alerts := page.alerts + [ContainerImagesProblem(outcome.request)]);
      }
    }

    /**
     * The context request has finished: fill the cores and RAM drop-downs,
     * one option per available value with the server's defaults marked; a
     * failed request is reported twice, as a context problem and as an ajax error.
     */
    method OnContextResponse(req: Response, parse: string -> Context)
      requires Valid()
      modifies this`page
      ensures Valid()
      ensures req.status == 200 ==>
        page == old(page).(selects := old(page).selects[SpCores := CoresSelect(parse(req.responseText))]
                                                       [SpMemory := MemorySelect(parse(req.responseText))])
      ensures req.status != 200 ==>
        page == old(page).(alerts := old(page).alerts + [ContextProblem(req), AjaxError(req)])
    {
      var outcome := SettleCurrentContext(req, parse);
      if outcome.Resolved? {
        var curContext := outcome.value;
        var cores := curContext.availableCores;
        var tempCoresSelectData: seq<OptionData> := [];
        for i := 0 to |cores|
          invariant |tempCoresSelectData| == i
          invariant forall k :: 0 <= k < i ==> tempCoresSelectData[k] == OptionData(cores[k], cores[k])
        {
          tempCoresSelectData := tempCoresSelectData + [OptionData(cores[i], cores[i])];
        }
        assert tempCoresSelectData == ValueOptions(cores);
        PopulateSelect(SpCores, tempCoresSelectData, "select # cores", curContext.defaultCores);

        var memory := curContext.availableRAM;
        var tempMemorySelectData: seq<OptionData> := [];
        for i := 0 to |memory|
          invariant |tempMemorySelectData| == i
          invariant forall k :: 0 <= k < i ==> tempMemorySelectData[k] == OptionData(memory[k], memory[k])
        {
          tempMemorySelectData := tempMemorySelectData + [OptionData(memory[i], memory[i])];
        }
        assert tempMemorySelectData == ValueOptions(memory);
        PopulateSelect(SpMemory, tempMemorySelectData, "select RAM", curContext.defaultRAM);
      } else if outcome.Rejected? {
        page := page.(alerts := page.alerts + [ContextProblem(outcome.request), AjaxError(outcome.request)]);
      }
    }

    /**
     * The reset button: mark the catalog's default type in the type drop-down
     * and set the form up for it again. Before the catalog has loaded the
     * handler fails on the undefined catalog and changes nothing modelled.
     */
    method HandleResetFormState()
      requires Valid()
      modifies this`page, this`calls
      ensures Valid()
      ensures sessionTypeMap.None? ==> page == old(page) && calls == old(calls)
      ensures sessionTypeMap.Some? ==>
        && page == old(page).(selects := old(page).selects[SpSessionType :=
                                ResetSelection(old(page).selects[SpSessionType], sessionTypeMap.value.default)],
                              hiddenFields := HiddenFields(sessionTypeMap.value, sessionTypeMap.value.default))
        && calls == old(calls) + LaunchFormCalls(sessionTypeMap.value.default)
    {
      if sessionTypeMap.None? {
        return;
      }
      var defaultType := sessionTypeMap.value.default;
      var opts := page.selects[SpSessionType];
      for k := 0 to |opts|
        invariant calls == old(calls)
        invariant SpSessionType in page.selects
        invariant page.selects == old(page).selects[SpSessionType := page.selects[SpSessionType]]
        invariant page == old(page).(selects := page.selects)
        invariant |page.selects[SpSessionType]| == |opts|
        invariant forall i :: 0 <= i < k ==>
          page.selects[SpSessionType][i] == opts[i].(selected := opts[i].value == defaultType)
        invariant forall i :: k <= i < |opts| ==> page.selects[SpSessionType][i] == opts[i]
      {
        var option := page.selects[SpSessionType][k];
        if option.value == defaultType {
          option := option.(selected := true);
        } else {
          option := option.(selected := false);
        }
        page := page.(selects := page.selects[SpSessionType := page.selects[SpSessionType][k := option]]);
      }
      assert page.selects[SpSessionType] == ResetSelection(opts, defaultType);
      SetLaunchFormForType(defaultType);
    }

    // ------------ Session request ------------

    /** The launch form was submitted: post it to the session service. */
    method HandleSessionRequest(form: FormData)
      modifies this`calls
      ensures calls == old(calls) + [PostSessionRequest(form)]
    {
      calls := calls + [PostSessionRequest(form)];
    }

    /** onSessionRequestOK: hide the launch form and reload the session list. */
    method OnSessionRequestOK(info: SessionInfo)
      requires Valid()
      modifies this`page, this`calls
      ensures Valid()
      ensures page == old(page).(launchFormShown := false)
      ensures calls == old(calls) + [LoadSessionList]
    {
      page := page.(launchFormShown := false);
      CheckForSessions();
    }

    /**
     * The session POST has finished: on 200 the request is announced as OK,
     * which hides the form and reloads the list exactly once; on 400 the error
     * is reported; on any other status the promise never settles and nothing happens.
     */
    method OnSessionRequestResponse(form: FormData, req: Response)
      requires Valid()
      modifies this`page, this`calls
      ensures Valid()
      ensures req.status == 200 ==>
        page == old(page).(launchFormShown := false) && calls == old(calls) + [LoadSessionList]
      ensures req.status == 400 ==>
        page == old(page).(alerts := old(page).alerts + [AjaxError(req)]) && calls == old(calls)
      ensures req.status != 200 && req.status != 400 ==> page == old(page) && calls == old(calls)
    {
      var outcome := SettlePost(req, form);
      if outcome.Resolved? {
        OnSessionRequestOK(outcome.value);
      } else if outcome.Rejected? {
        page := page.(alerts := page.alerts + [AjaxError(outcome.request)]);
      }
    }
  }

  /**
   * Two list-done events in a row, with no poll ending in between, request
   * two polls: the flag meant to keep a single poller never stops the second.
   */
  method RepeatedListDoneRequestsRepeatedPolls(baseURL: string, sessions: seq<Session>)
  {
    var app := new PortalApp(baseURL);
    app.OnLoadSessionListDone(sessions);
    app.OnLoadSessionListDone(sessions);
    assert app.calls == [PollSessionList(PollIntervalMs), PollSessionList(PollIntervalMs)];
  }
}
