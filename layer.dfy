/**
 * The request controller of the Overpass layer: the in-progress flag, the single "latest wins"
 * pending slot, the list of loaded bounds and the set of seen feature ids, driven by map moves and
 * by the completion of the requests it sends.
 *
 * The XMLHttpRequest is replaced by its two callbacks, `OnLoad` and `OnTimeout`, which the
 * environment may call for any request sent and not yet completed (the ghost multiset `inFlight`).
 * What the `beforeRequest` hook returns is passed in as `veto` (true when it returns `false`) to
 * every method that may send a request. The calls the layer makes out of itself (hooks and sends)
 * are recorded in the ghost sequence `trace`.
 */
module Layer {
  import opened Wrappers
  import opened Geo
  import opened Query
  import opened Features
  import Envelope

  /** The parts of the runtime this model leaves abstract. */
  datatype Host = Host(
    /** ClipperLib's verdict that the loaded bounds leave nothing of the first argument uncovered. */
    covers: (Bounds, seq<Bounds>) -> bool,
    /** `_buildLargerBounds`, margin and longitude wrap included. */
    expand: Bounds -> Bounds,
    /** JavaScript's conversion of a number to a string, as `join(',')` applies it. */
    format: real -> string,
    /** `String.prototype.toUpperCase`. */
    upper: string -> string)

  /** The popup content of a marker: the envelope address of the feature's tags. */
  function PopupOf(host: Host): map<string, string> -> seq<string> {
    tags => Envelope.Envelope(tags, host.upper)
  }

  /** The options the controller reads. */
  datatype Options = Options(endPoint: string, query: string, minZoom: real, retryOnTimeout: bool, noInitialRequest: bool)

  /** A request sent: its URL and the bounds it will record as loaded. */
  datatype Request = Request(url: string, bounds: Bounds)

  /** What the controller does out of itself. */
  datatype Effect =
    | BeforeRequest        // options.beforeRequest is called
    | AfterRequest         // options.afterRequest is called
    | Send(request: Request)
    | ErrorHook            // options.onError is called
    | TimeoutHook          // options.onTimeout is called

  /** How a call of `_sendRequest` ends. */
  datatype Dispatch = AlreadyLoaded | Vetoed | Sent(request: Request)

  function CornersOf(host: Host, b: Bounds): Corners {
    Corners(host.format(b.southWest.lat), host.format(b.southWest.lng),
            host.format(b.northEast.lat), host.format(b.northEast.lng))
  }

  /** The request `_sendRequest` builds for `bounds`: they are enlarged a second time first. */
  function RequestFor(host: Host, options: Options, bounds: Bounds): (r: Request)
    ensures r.bounds == host.expand(bounds)
    ensures QueryOfUrl(options.endPoint, r.url) == Some(BuildQuery(options.query, CornersOf(host, host.expand(bounds))))
  {
    var rb := host.expand(bounds);
    var r := Request(BuildUrl(options.endPoint, BuildQuery(options.query, CornersOf(host, rb))), rb);
    UrlRoundTrip(options.endPoint, BuildQuery(options.query, CornersOf(host, rb)), r.url);
    r
  }

  /** `_isFullyLoadedBounds`: an empty list covers nothing; otherwise the clipping library decides. */
  function IsFullyLoadedBounds(host: Host, bounds: Bounds, loaded: seq<Bounds>): (r: bool)
    ensures loaded == [] ==> !r
    ensures loaded != [] ==> (r <==> host.covers(bounds, loaded))
  {
    if |loaded| == 0 then false else host.covers(bounds, loaded)
  }

  /** How `_sendRequest(bounds)` ends, given the loaded bounds and the `beforeRequest` verdict. */
  function DispatchOf(host: Host, options: Options, bounds: Bounds, loaded: seq<Bounds>, veto: bool): Dispatch {
    if IsFullyLoadedBounds(host, bounds, loaded) then AlreadyLoaded
    else if veto then Vetoed
    else Sent(RequestFor(host, options, bounds))
  }

  /** The hooks called and the request sent. */
  function EffectsOf(d: Dispatch): seq<Effect> {
    match d
    case AlreadyLoaded => []
    case Vetoed => [BeforeRequest, AfterRequest]
    case Sent(r) => [BeforeRequest, Send(r)]
  }

  function LaunchedBy(d: Dispatch): multiset<Request> {
    if d.Sent? then multiset{d.request} else multiset{}
  }

  /** The in-progress flag afterwards: cleared when already loaded, kept when vetoed, set when sent. */
  function InProgressAfter(d: Dispatch, before: bool): bool {
    match d
    case AlreadyLoaded => false
    case Vetoed => before
    case Sent(_) => true
  }

  /** A launch puts at most one request out, and only with the flag set. */
  lemma {:induction false} LaunchIsSingle(d: Dispatch, before: bool)
    ensures |LaunchedBy(d)| <= 1 && (|LaunchedBy(d)| == 1 ==> InProgressAfter(d, before))
  {
  }

  /** The request that completes was the only one out. */
  lemma {:induction false} LoneRequest(m: multiset<Request>, r: Request)
    requires r in m && |m| <= 1
    ensures m - multiset{r} == multiset{}
  {
    assert |m - multiset{r}| == |m| - 1;
  }

  /** A load whose status lies in [200, 400). */
  predicate IsSuccess(status: int) {
    200 <= status < 400
  }

  class OverPassLayer {
    const host: Host
    var options: Options
    var requestInProgress: bool
    var nextRequest: Option<Bounds>
    var loadedBounds: seq<Bounds>
    var ids: set<int>
    var markers: seq<Marker>
    ghost var inFlight: multiset<Request>
    ghost var trace: seq<Effect>

    /** At most one request is out, and only while the flag is set. */
    ghost predicate SingleFlight()
      reads this
    {
      |inFlight| <= 1 && (|inFlight| == 1 ==> requestInProgress)
    }

    /** Every marker is for a seen id, and no id has two markers. */
    ghost predicate MarkersUnique()
      reads this
    {
      UniqueIds(markers, ids)
    }

    /**
     * What `_onRequestCompleteCallback` leaves when it starts with pending slot `pending` and flag
     * `wasInProgress`, `hooks` being the trace and `flight` the requests out just before it may
     * send: the pending slot is empty; without a pending request the flag is cleared, otherwise the
     * pending bounds are dispatched against the loaded bounds as they are now.
     */
    ghost predicate Completed(pending: Option<Bounds>, wasInProgress: bool, hooks: seq<Effect>,
                              flight: multiset<Request>, veto: bool)
      reads this
    {
      && nextRequest == None
      && (pending.None? ==> !requestInProgress && inFlight == flight && trace == hooks)
      && (pending.Some? ==>
            var d := DispatchOf(host, options, pending.value, loadedBounds, veto);
            && requestInProgress == InProgressAfter(d, wasInProgress)
            && inFlight == flight + LaunchedBy(d)
            && trace == hooks + EffectsOf(d))
    }

    /** `initialize(options)`. */
    constructor (options: Options, loadedBounds: seq<Bounds>, host: Host)
      ensures this.host == host && this.options == options && this.loadedBounds == loadedBounds
      ensures !requestInProgress && nextRequest == None && ids == {} && markers == []
      ensures inFlight == multiset{} && trace == []
      ensures SingleFlight() && MarkersUnique()
    {
      this.host := host;
      this.options := options;
      this.loadedBounds := loadedBounds;
      requestInProgress := false;
      nextRequest := None;
      ids := {};
      markers := [];
      inFlight := multiset{};
      trace := [];
    }

    /** `_sendRequest(bounds)`. */
    method SendRequest(bounds: Bounds, veto: bool)
      modifies this
      ensures var d := old(DispatchOf(host, options, bounds, loadedBounds, veto));
        && requestInProgress == InProgressAfter(d, old(requestInProgress))
        && inFlight == old(inFlight) + LaunchedBy(d)
        && trace == old(trace) + EffectsOf(d)
      ensures options == old(options) && nextRequest == old(nextRequest) && loadedBounds == old(loadedBounds)
      ensures ids == old(ids) && markers == old(markers)
    {
      if IsFullyLoadedBounds(host, bounds, loadedBounds) {
        requestInProgress := false;
        return;
      }
      var requestBounds := host.expand(bounds);
      var url := BuildUrl(options.endPoint, BuildQuery(options.query, CornersOf(host, requestBounds)));
      trace := trace + [BeforeRequest];
      if veto {
        trace := trace + [AfterRequest];
        return;
      }
      requestInProgress := true;
      var request := Request(url, requestBounds);
      inFlight := inFlight + multiset{request};
      trace := trace + [Send(request)];
    }

    /** `_prepareRequest`, run on every `moveend` with the map's zoom and bounds. */
    method PrepareRequest(zoom: real, viewport: Bounds, veto: bool)
      modifies this
      ensures zoom < old(options.minZoom) ==> unchanged(this)
      ensures zoom >= old(options.minZoom) && old(requestInProgress) ==>
        && nextRequest == Some(host.expand(viewport))
        && requestInProgress && inFlight == old(inFlight) && trace == old(trace)
      ensures zoom >= old(options.minZoom) && !old(requestInProgress) ==>
        var d := old(DispatchOf(host, options, host.expand(viewport), loadedBounds, veto));
        && nextRequest == None
        && requestInProgress == InProgressAfter(d, false)
        && inFlight == old(inFlight) + LaunchedBy(d)
        && trace == old(trace) + EffectsOf(d)
      ensures options == old(options) && loadedBounds == old(loadedBounds)
      ensures ids == old(ids) && markers == old(markers)
      ensures old(SingleFlight()) ==> SingleFlight()
    {
      if zoom < options.minZoom {
        return;
      }
      var bounds := host.expand(viewport);
      if requestInProgress {
        nextRequest := Some(bounds);
      } else {
        nextRequest := None;
        SendRequest(bounds, veto);
      }
    }

    /** `_onRequestCompleteCallback`: `afterRequest`, then the pending request starts or the flag is cleared. */
    method OnRequestComplete(veto: bool)
      modifies this
      ensures Completed(old(nextRequest), old(requestInProgress), old(trace) + [AfterRequest], old(inFlight), veto)
      ensures options == old(options) && loadedBounds == old(loadedBounds)
      ensures ids == old(ids) && markers == old(markers)
      ensures old(inFlight) == multiset{} ==> SingleFlight()
    {
      trace := trace + [AfterRequest];
      if nextRequest.Some? {
        var next := nextRequest.value;
        nextRequest := None;
        SendRequest(next, veto);
        LaunchIsSingle(DispatchOf(host, options, next, loadedBounds, veto), old(requestInProgress));
      } else {
        requestInProgress := false;
      }
    }

    /**
     * The default `onSuccess`: one marker per element whose id is new, in response order. It stops
     * (the code throws) at a new element without a position; `complete` tells whether it got
     * to the end.
     */
    method OnSuccess(elements: seq<Element>) returns (complete: bool)
      modifies this`ids, this`markers
      ensures var r := Ingest(old(ids), elements, PopupOf(host));
        ids == r.ids && markers == old(markers) + r.markers && complete == r.complete
    {
      ghost var seen, before, popup := ids, markers, PopupOf(host);
      ghost var added: seq<Marker> := [];
      var i := 0;
      while i < |elements|
        invariant 0 <= i <= |elements|
        invariant markers == before + added
        invariant Ingest(seen, elements[..i], popup) == Ingested(ids, added, true)
      {
        var e := elements[i];
        IngestPrefix(seen, elements, i, popup);
        if e.id in ids {
          i := i + 1;
          continue;
        }
        ids := ids + {e.id};
        var pos := Position(e);
        if pos.None? {
          IngestStopsAtFailure(seen, elements, i + 1, popup);
          complete := false;
          return;
        }
        var marker := MakeMarker(e, pos.value);
        markers := markers + [marker];
        added := added + [marker];
        i := i + 1;
      }
      assert elements[..i] == elements;
      complete := true;
    }

    /** The marker `onSuccess` adds for a new element at `pos`, its popup holding the envelope address. */
    method MakeMarker(e: Element, pos: LatLng) returns (m: Marker)
      requires Position(e) == Some(pos)
      ensures m == MarkerOf(e, PopupOf(host))
    {
      var address := Envelope.FormatEnvelope(e.tags, host.upper);
      m := Marker(e.id, pos, address);
    }

    /** `_onRequestLoadCallback`: the request's bounds join the loaded bounds. */
    method OnRequestLoadCallback(bounds: Bounds)
      modifies this`loadedBounds
      ensures loadedBounds == old(loadedBounds) + [bounds]
    {
      loadedBounds := loadedBounds + [bounds];
    }

    /**
     * The successful branch of `_onRequestLoad`: `onSuccess`, then the load and complete callbacks,
     * which never run when `onSuccess` throws.
     */
    method OnLoadSuccess(request: Request, elements: seq<Element>, veto: bool) returns (completes: bool)
      modifies this
      ensures var r := Ingest(old(ids), elements, PopupOf(host));
        && ids == r.ids && markers == old(markers) + r.markers && completes == r.complete
      ensures options == old(options)
      ensures !completes ==>
        && loadedBounds == old(loadedBounds)
        && requestInProgress == old(requestInProgress) && nextRequest == old(nextRequest)
        && inFlight == old(inFlight) && trace == old(trace)
      ensures completes ==>
        && loadedBounds == old(loadedBounds) + [request.bounds]
        && Completed(old(nextRequest), old(requestInProgress), old(trace) + [AfterRequest], old(inFlight), veto)
      ensures old(inFlight) == multiset{} ==> SingleFlight()
      ensures old(MarkersUnique()) ==> MarkersUnique()
    {
      if MarkersUnique() { IngestKeepsUnique(markers, ids, elements, PopupOf(host)); }
      completes := OnSuccess(elements);
      if completes {
        OnRequestLoadCallback(request.bounds);
        OnRequestComplete(veto);
      }
    }

    /**
     * `_onRequestLoad`: a status in [200, 400) goes to `OnLoadSuccess` (a body that does not parse
     * makes `JSON.parse` throw before anything else, `response == None`); any other status calls
     * `onError` and then the complete callback.
     */
    method OnLoad(request: Request, status: int, response: Option<seq<Element>>, veto: bool)
      requires request in inFlight
      modifies this
      ensures options == old(options)
      ensures IsSuccess(status) && response.Some? ==>
        var r := Ingest(old(ids), response.value, PopupOf(host));
        ids == r.ids && markers == old(markers) + r.markers
      ensures !(IsSuccess(status) && response.Some?) ==> ids == old(ids) && markers == old(markers)
      ensures loadedBounds ==
        if IsSuccess(status) && response.Some? && Ingest(old(ids), response.value, PopupOf(host)).complete
        then old(loadedBounds) + [request.bounds] else old(loadedBounds)
      // onSuccess throws: the rest of the load handler never runs
      ensures IsSuccess(status) && !(response.Some? && Ingest(old(ids), response.value, PopupOf(host)).complete) ==>
        && requestInProgress == old(requestInProgress) && nextRequest == old(nextRequest)
        && inFlight == old(inFlight) - multiset{request} && trace == old(trace)
      // otherwise the complete callback runs, after the load callback on success
      ensures IsSuccess(status) && response.Some? && Ingest(old(ids), response.value, PopupOf(host)).complete ==>
        Completed(old(nextRequest), old(requestInProgress), old(trace) + [AfterRequest], old(inFlight) - multiset{request}, veto)
      // and after onError on a failed status
      ensures !IsSuccess(status) ==>
        Completed(old(nextRequest), old(requestInProgress), old(trace) + [ErrorHook, AfterRequest], old(inFlight) - multiset{request}, veto)
      ensures old(SingleFlight()) ==> SingleFlight()
      ensures old(MarkersUnique()) ==> MarkersUnique()
    {
      if SingleFlight() { LoneRequest(inFlight, request); }
      inFlight := inFlight - multiset{request};
      if IsSuccess(status) {
        if response.Some? {
          var _ := OnLoadSuccess(request, response.value, veto);
        }
      } else {
        trace := trace + [ErrorHook];
        assert trace + [AfterRequest] == old(trace) + [ErrorHook, AfterRequest];
        OnRequestComplete(veto);
      }
    }

    /**
     * `_onRequestTimeout`. With `retryOnTimeout` the code calls `_sendRequest` with the URL
     * instead of the bounds, which throws before anything else happens, so the flag stays as it was
     * and no callback follows.
     */
    method OnTimeout(request: Request, veto: bool)
      requires request in inFlight
      modifies this
      ensures options == old(options) && loadedBounds == old(loadedBounds)
      ensures ids == old(ids) && markers == old(markers)
      ensures options.retryOnTimeout ==>
        && requestInProgress == old(requestInProgress) && nextRequest == old(nextRequest)
        && inFlight == old(inFlight) - multiset{request} && trace == old(trace) + [TimeoutHook]
      ensures !options.retryOnTimeout ==>
        Completed(old(nextRequest), old(requestInProgress), old(trace) + [TimeoutHook, AfterRequest], old(inFlight) - multiset{request}, veto)
      ensures old(SingleFlight()) ==> SingleFlight()
    {
      if SingleFlight() { LoneRequest(inFlight, request); }
      inFlight := inFlight - multiset{request};
      trace := trace + [TimeoutHook];
      if options.retryOnTimeout {
        return;
      }
      assert trace + [AfterRequest] == old(trace) + [TimeoutHook, AfterRequest];
      OnRequestComplete(veto);
    }

    /** `_resetData`: ids, loaded bounds and markers go, the flag is cleared; the pending slot stays. */
    method ResetData()
      modifies this
      ensures ids == {} && loadedBounds == [] && markers == [] && !requestInProgress
      ensures nextRequest == old(nextRequest) && options == old(options)
      ensures inFlight == old(inFlight) && trace == old(trace)
      ensures MarkersUnique()
      ensures old(inFlight) == multiset{} ==> SingleFlight()
    {
      ids := {};
      loadedBounds := [];
      requestInProgress := false;
      markers := [];
    }

    /** `setQuery`: the new template, a reset, then a request for the current view. */
    method SetQuery(query: string, zoom: real, viewport: Bounds, veto: bool)
      modifies this
      ensures options == old(options).(query := query)
      ensures ids == {} && loadedBounds == [] && markers == []
      ensures zoom < options.minZoom ==>
        && !requestInProgress && nextRequest == old(nextRequest)
        && inFlight == old(inFlight) && trace == old(trace)
      // with nothing loaded any more the request is never skipped as covered
      ensures zoom >= options.minZoom ==>
        && nextRequest == None
        && (veto ==> !requestInProgress && inFlight == old(inFlight)
                     && trace == old(trace) + [BeforeRequest, AfterRequest])
        && (!veto ==> var r := RequestFor(host, options, host.expand(viewport));
                      && requestInProgress
                      && inFlight == old(inFlight) + multiset{r}
                      && trace == old(trace) + [BeforeRequest, Send(r)])
      ensures MarkersUnique()
      ensures old(inFlight) == multiset{} ==> SingleFlight()
    {
      options := options.(query := query);
      ResetData();
      PrepareRequest(zoom, viewport, veto);
    }

    /**
     * `onAdd`: a new, empty marker group, then the initial request unless `noInitialRequest`;
     * later `moveend`s call `PrepareRequest`. The seen ids are kept.
     */
    method OnAdd(zoom: real, viewport: Bounds, veto: bool)
      modifies this
      ensures markers == [] && MarkersUnique()
      ensures options == old(options) && loadedBounds == old(loadedBounds) && ids == old(ids)
      ensures options.noInitialRequest || zoom < options.minZoom ==>
        && requestInProgress == old(requestInProgress) && nextRequest == old(nextRequest)
        && inFlight == old(inFlight) && trace == old(trace)
      ensures !options.noInitialRequest && zoom >= options.minZoom && old(requestInProgress) ==>
        && nextRequest == Some(host.expand(viewport))
        && requestInProgress && inFlight == old(inFlight) && trace == old(trace)
      ensures !options.noInitialRequest && zoom >= options.minZoom && !old(requestInProgress) ==>
        var d := old(DispatchOf(host, options, host.expand(viewport), loadedBounds, veto));
        && nextRequest == None
        && requestInProgress == InProgressAfter(d, false)
        && inFlight == old(inFlight) + LaunchedBy(d)
        && trace == old(trace) + EffectsOf(d)
      ensures old(SingleFlight()) ==> SingleFlight()
    {
      markers := [];
      if !options.noInitialRequest {
        PrepareRequest(zoom, viewport, veto);
      }
    }

    /** `onRemove`: the layer's data is reset (markers and controls leave the map). */
    method OnRemove()
      modifies this
      ensures ids == {} && loadedBounds == [] && markers == [] && !requestInProgress
      ensures nextRequest == old(nextRequest) && options == old(options)
      ensures inFlight == old(inFlight) && trace == old(trace)
      ensures MarkersUnique()
      ensures old(inFlight) == multiset{} ==> SingleFlight()
    {
      ResetData();
    }
  }
}
