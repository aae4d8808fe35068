/**
 * Runs of the request controller from a fresh layer, each showing one consequence of the code
 * when calls are composed.
 */
module Scenarios {
  import opened Wrappers
  import opened Geo
  import opened Layer

  /**
   * Moves made while a request is out only overwrite the pending slot: nothing more is sent, and
   * when the request fails the last move is the one that goes out.
   */
  method LatestMoveWins(host: Host, options: Options, zoom: real, first: Bounds, second: Bounds, third: Bounds, status: int)
    returns (layer: OverPassLayer)
    requires zoom >= options.minZoom && !IsSuccess(status)
    ensures layer.nextRequest == None && layer.requestInProgress
    ensures layer.inFlight == multiset{RequestFor(host, options, host.expand(third))}
  {
    layer := new OverPassLayer(options, [], host);
    layer.PrepareRequest(zoom, first, false);
    var request := RequestFor(host, options, host.expand(first));
    assert layer.inFlight == multiset{request};
    layer.PrepareRequest(zoom, second, false);
    layer.PrepareRequest(zoom, third, false);
    assert layer.nextRequest == Some(host.expand(third)) && layer.inFlight == multiset{request};
    layer.OnLoad(request, status, None, false);
  }

  /**
   * When `beforeRequest` vetoes the pending request that the complete callback starts, the flag
   * stays set with nothing out: every later move only fills the pending slot, and no request is
   * sent again until a reset.
   */
  method StuckAfterVetoedFollowUp(host: Host, options: Options, zoom: real, first: Bounds, second: Bounds, later: Bounds, status: int)
    returns (layer: OverPassLayer)
    requires zoom >= options.minZoom && !IsSuccess(status)
    ensures layer.requestInProgress && layer.inFlight == multiset{}
    ensures layer.nextRequest == Some(host.expand(later))
  {
    layer := new OverPassLayer(options, [], host);
    layer.PrepareRequest(zoom, first, false);
    var request := RequestFor(host, options, host.expand(first));
    layer.PrepareRequest(zoom, second, false);
    layer.OnLoad(request, status, None, true);
    assert layer.requestInProgress && layer.inFlight == multiset{};
    layer.PrepareRequest(zoom, later, false);
  }

  /**
   * `setQuery` while a request is out clears the flag without aborting that request, so a second
   * request goes out beside it.
   */
  method TwoInFlightAfterSetQuery(host: Host, options: Options, zoom: real, view: Bounds, query: string)
    returns (layer: OverPassLayer)
    requires zoom >= options.minZoom
    ensures |layer.inFlight| == 2 && layer.requestInProgress
  {
    layer := new OverPassLayer(options, [], host);
    layer.PrepareRequest(zoom, view, false);
    assert |layer.inFlight| == 1;
    layer.SetQuery(query, zoom, view, false);
  }
}
