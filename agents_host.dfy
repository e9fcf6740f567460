/** `A2AHost` of backend/agents/a2a_host.py: wraps the router's cards into a
    response for the session, or hands them out one at a time. */
module AgentsHost {
  import opened Wrappers
  import opened Json
  import opened Schemas
  import opened Multimodal
  import opened Router

  /** `process_request`. The `datetime.utcnow()` reading is `now`; the uuid and
      the two timestamps a ticket needs are passed on to the router. */
  function ProcessRequest(req: MultimodalRequest, now: string, uuid: string,
                          createdAt: string, submittedAt: string): (r: Result<A2UIResponse, RouteError>)
    ensures var routed := RouteRequest(req, uuid, createdAt, submittedAt);
      && (r.Err? <==> routed.Err?)
      && (r.Err? ==> r.error == routed.error)
      && (r.Ok? ==> r.value.cards == routed.value.cards)
    ensures r.Ok? ==> r.value.sessionId == req.sessionId && r.value.timestamp == now
    ensures r.Ok? ==> r.value.metadata == Some([("modality", Str(ModalityName(req.modality))),
                                                ("user_id", Str(req.userId))])
  {
    match RouteRequest(req, uuid, createdAt, submittedAt)
    case Err(e) => Err(e)
    case Ok(result) =>
      Ok(A2UIResponse(
        result.cards,
        req.sessionId,
        now,
        Some([("modality", Str(ModalityName(req.modality))), ("user_id", Str(req.userId))])))
  }

  /** Every response carries the router's one or two cards, a text card first;
      only a VM request can fail. */
  lemma ResponseStartsWithText(req: MultimodalRequest, now: string, uuid: string,
                               createdAt: string, submittedAt: string)
    ensures var r := ProcessRequest(req, now, uuid, createdAt, submittedAt);
      && (r.Err? ==> RouteIntent(InputText(req)) == "vm_provision")
      && (r.Ok? ==> 1 <= |r.value.cards| <= 2 && r.value.cards[0].TextCard?)
  {
    RouteRequestCards(req, uuid, createdAt, submittedAt);
  }

  /** The loop of `process_streaming_request`: yields each card in order. */
  method YieldCards(cards: seq<Card>) returns (yielded: seq<Card>)
    ensures yielded == cards
  {
    yielded := [];
    for i := 0 to |cards|
      invariant yielded == cards[..i]
    {
      yielded := yielded + [cards[i]];
    }
  }

  /** `process_streaming_request`: the cards of the response, yielded one by
      one in order. An error from `process_request` is raised before anything
      is yielded. */
  method ProcessStreamingRequest(req: MultimodalRequest, now: string, uuid: string,
                                 createdAt: string, submittedAt: string)
    returns (r: Result<seq<Card>, RouteError>)
    ensures var response := ProcessRequest(req, now, uuid, createdAt, submittedAt);
      && (r.Err? <==> response.Err?)
      && (r.Err? ==> r.error == response.error)
      && (r.Ok? ==> r.value == response.value.cards)
  {
    var response := ProcessRequest(req, now, uuid, createdAt, submittedAt);
    if response.Err? {
      return Err(response.error);
    }
    var yielded := YieldCards(response.value.cards);
    return Ok(yielded);
  }
}
