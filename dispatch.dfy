/**
 * How the controller's network calls settle: the status rules of the session
 * POST and of the two catalog GETs, and the classification of a failed
 * session-list load. A request is given as already finished (its status and
 * response text); the JSON parser is a parameter.
 */
module Dispatch {
  import opened Wrappers
  import opened LaunchForm

  /** A finished XMLHttpRequest: its HTTP status and its response text. */
  datatype Response = Response(status: int, responseText: string)

  /** How a promise ends: resolved with a value, rejected with the request, or never settled. */
  datatype Outcome<T> = Resolved(value: T) | Rejected(request: Response) | NeverSettles

  /** The entries of a FormData object, in the order they were appended. */
  type FormData = seq<(string, string)>

  /** `FormData.get`: the value of the first entry with the key, or null. */
  function FormGet(form: FormData, key: string): (r: Option<string>)
    ensures r.None? <==> forall i :: 0 <= i < |form| ==> form[i].0 != key
    ensures r.Some? ==> exists i :: 0 <= i < |form| && form[i] == (key, r.value)
                          && forall j :: 0 <= j < i ==> form[j].0 != key
  {
    if |form| == 0 then None
    else if form[0].0 == key then Some(form[0].1)
    else
      var r := FormGet(form[1..], key);
      if r.Some? then
        ghost var i :| 0 <= i < |form[1..]| && form[1..][i] == (key, r.value)
                        && forall j :: 0 <= j < i ==> form[1..][j].0 != key;
        assert form[i + 1] == (key, r.value);
        r
      else r
  }

  /** The value the session POST resolves with: the submitted name and type. */
  datatype SessionInfo = SessionInfo(name: Option<string>, sessionType: Option<string>)

  /**
   * The session POST: status 200 resolves with the name and type taken from
   * the submitted form, never from the response; status 400 rejects with the
   * request; every other status leaves the promise pending for ever.
   */
  function SettlePost(req: Response, form: FormData): (r: Outcome<SessionInfo>)
    ensures r.Resolved? <==> req.status == 200
    ensures r.Resolved? ==> r.value == SessionInfo(FormGet(form, "name"), FormGet(form, "type"))
    ensures r.Rejected? <==> req.status == 400
    ensures r.Rejected? ==> r.request == req
    ensures r.NeverSettles? <==> req.status != 200 && req.status != 400
  {
    if req.status == 200 then Resolved(SessionInfo(FormGet(form, "name"), FormGet(form, "type")))
    else if req.status == 400 then Rejected(req)
    else NeverSettles
  }

  /** A GET resolves with the parsed response text iff the status is 200, and rejects with the request otherwise. */
  function SettleGet<T>(req: Response, parse: string -> T): (r: Outcome<T>)
    ensures r.Resolved? <==> req.status == 200
    ensures r.Resolved? ==> r.value == parse(req.responseText)
    ensures r.Rejected? <==> req.status != 200
    ensures r.Rejected? ==> r.request == req
  {
    if req.status == 200 then Resolved(parse(req.responseText)) else Rejected(req)
  }

  /** The image list GET. */
  function SettleImageList(req: Response, parse: string -> seq<Image>): (r: Outcome<seq<Image>>)
    ensures r.Resolved? <==> req.status == 200
    ensures r.Resolved? ==> r.value == parse(req.responseText)
    ensures r.Rejected? <==> req.status != 200
    ensures r.Rejected? ==> r.request == req
  {
    SettleGet(req, parse)
  }

  /** The context resources GET. */
  function SettleCurrentContext(req: Response, parse: string -> Context): (r: Outcome<Context>)
    ensures r.Resolved? <==> req.status == 200
    ensures r.Resolved? ==> r.value == parse(req.responseText)
    ensures r.Rejected? <==> req.status != 200
    ensures r.Rejected? ==> r.request == req
  {
    SettleGet(req, parse)
  }

  /** The response text matters to the POST only as the request that a 400 rejects with. */
  lemma PostIgnoresResponseText(status: int, t1: string, t2: string, form: FormData)
    ensures status != 400 ==> SettlePost(Response(status, t1), form) == SettlePost(Response(status, t2), form)
  {
  }

  /** How a failed session-list load is reported. */
  datatype ListErrorReport = AuthorizationIssue | AjaxFailure

  /** A failed session-list load is an authorization issue iff its status is 403. */
  function ClassifyListError(req: Response): (r: ListErrorReport)
    ensures r == AuthorizationIssue <==> req.status == 403
    ensures r == AjaxFailure <==> req.status != 403
  {
    if req.status == 403 then AuthorizationIssue else AjaxFailure
  }
}
