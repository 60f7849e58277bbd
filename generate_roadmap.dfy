/** The roadmap generation route: it checks the request for skills and a role,
    asks the language model for a roadmap, takes the JSON out of an optional
    Markdown code fence, repairs and parses it, and passes it on only when it has a
    `roadmap` array. The model service, `jsonrepair` and `JSON.parse` are inputs:
    the service's reply and a partial function from text to JSON. */
module RoadmapRoute {
  import opened Wrappers
  import opened Text
  import opened Json

  // ---- the fence pattern /```(?:json)?\s*([\s\S]*?)\s*```/ -------------------

  /** Three backticks start at `i`. */
  predicate FenceAt(s: string, i: int) {
    0 <= i && i + 3 <= |s| && s[i] == '`' && s[i + 1] == '`' && s[i + 2] == '`'
  }

  /** The tag `json` starts at `i`. */
  predicate TagAt(s: string, i: int) {
    0 <= i && i + 4 <= |s| && s[i] == 'j' && s[i + 1] == 's' && s[i + 2] == 'o' && s[i + 3] == 'n'
  }

  /** The lazy group `([\s\S]*?)` started at `e`, followed by `\s*```` `: the
      shortest group end from which white space then a fence follow. Giving the
      trailing `\s*` back one character at a time cannot help, since a backtick is
      not white space, so only its greedy end is tried. */
  function LazyClose(s: string, e: nat): (r: Option<nat>)
    requires e <= |s|
    ensures r.Some? ==> e <= r.value <= |s| && FenceAt(s, SkipWhiteSpace(s, r.value))
    ensures r.Some? ==> forall q :: e <= q < r.value ==> !FenceAt(s, SkipWhiteSpace(s, q))
    ensures r.None? ==> forall q :: e <= q <= |s| ==> !FenceAt(s, SkipWhiteSpace(s, q))
    decreases |s| - e
  {
    if FenceAt(s, SkipWhiteSpace(s, e)) then Some(e)
    else if e == |s| then None
    else LazyClose(s, e + 1)
  }

  /** The leading `\s*` from `g0` tried at its greedy end `w` first, then giving
      back one character at a time; the result is the group's bounds. */
  function TryFrom(s: string, g0: nat, w: nat): (m: Option<(nat, nat)>)
    requires g0 <= w <= |s|
    ensures m.Some? ==> m.value.0 <= m.value.1 <= |s|
    decreases w
  {
    var r := LazyClose(s, w);
    if r.Some? then Some((w, r.value))
    else if w == g0 then None
    else TryFrom(s, g0, w - 1)
  }

  /** An attempt at position `p`: a fence, then the optional tag (present first,
      then absent), then the rest. */
  function TryAt(s: string, p: nat): (m: Option<(nat, nat)>)
    requires p <= |s|
    ensures m.Some? ==> m.value.0 <= m.value.1 <= |s|
  {
    if !FenceAt(s, p) then None
    else
      var tagged := if TagAt(s, p + 3) then TryFrom(s, p + 7, SkipWhiteSpace(s, p + 7)) else None;
      if tagged.Some? then tagged else TryFrom(s, p + 3, SkipWhiteSpace(s, p + 3))
  }

  /** `String.prototype.match` with the pattern: the leftmost position with a match. */
  function Search(s: string, p: nat): (m: Option<(nat, nat)>)
    requires p <= |s|
    ensures m.Some? ==> m.value.0 <= m.value.1 <= |s|
    decreases |s| - p
  {
    var m := TryAt(s, p);
    if m.Some? then m
    else if p == |s| then None
    else Search(s, p + 1)
  }

  /** `match ? match[1] : content`. */
  function StripFence(content: string): string {
    var m := Search(content, 0);
    if m.Some? then content[m.value.0..m.value.1] else content
  }

  // ---- what the pattern means ----------------------------------------------

  /** The first fence at or after `from`. */
  function FirstFence(s: string, from: nat): (k: Option<nat>)
    ensures k.Some? ==> from <= k.value && FenceAt(s, k.value)
    ensures k.Some? ==> forall q :: from <= q < k.value ==> !FenceAt(s, q)
    ensures k.None? ==> forall q :: from <= q ==> !FenceAt(s, q)
    decreases |s| - from
  {
    if from + 3 > |s| then None
    else if FenceAt(s, from) then Some(from)
    else FirstFence(s, from + 1)
  }

  /** No fence starts inside a `json` tag. */
  lemma NoFenceInTag(s: string, i: nat)
    requires TagAt(s, i)
    ensures forall q :: i <= q < i + 4 ==> !FenceAt(s, q)
  {
  }

  /** A fenced block's text: with a first fence at `i` and a later fence starting at
      least three characters on, the text between them, after the `json` tag when
      there is one, with surrounding white space removed. */
  function FencedBlock(s: string): Option<string> {
    var i := FirstFence(s, 0);
    if i.None? then None
    else
      var k := FirstFence(s, i.value + 3);
      if k.None? then None
      else
        if TagAt(s, i.value + 3) then
          NoFenceInTag(s, i.value + 3);
          Some(Trim(s[i.value + 7..k.value]))
        else
          Some(Trim(s[i.value + 3..k.value]))
  }

  /** The white-space run ends where it ends, from whichever of its characters it starts. */
  lemma {:induction false} SkipWsWithin(s: string, i: nat, e: nat)
    requires i <= |s| && i <= e <= SkipWhiteSpace(s, i)
    ensures SkipWhiteSpace(s, e) == SkipWhiteSpace(s, i)
    decreases e - i
  {
    if i < e {
      SkipWsWithin(s, i + 1, e);
    }
  }

  /** With a first fence `k` at or after `e`, the lazy group ends where the white
      space before `k` begins (but not before `e`). */
  lemma LazyCloseAtFence(s: string, e: nat, k: nat)
    requires e <= k && FenceAt(s, k)
    requires forall q :: e <= q < k ==> !FenceAt(s, q)
    ensures LazyClose(s, e).Some?
    ensures var r := LazyClose(s, e).value;
            && r <= k && (forall q :: r <= q < k ==> IsWhiteSpace(s[q]))
            && (r == e || !IsWhiteSpace(s[r - 1]))
  {
    assert SkipWhiteSpace(s, k) == k;
    var r := LazyClose(s, e).value;
    var k' := SkipWhiteSpace(s, r);
    assert k' == k;
    assert r > e ==> SkipWhiteSpace(s, r - 1) == if IsWhiteSpace(s[r - 1]) then k' else r - 1;
  }

  /** With no fence at or after `e`, the lazy group finds no end. */
  lemma LazyCloseNoFence(s: string, e: nat)
    requires e <= |s|
    requires forall q :: e <= q ==> !FenceAt(s, q)
    ensures LazyClose(s, e).None?
  {
  }

  lemma {:induction false} TryFromNone(s: string, g0: nat, w: nat)
    requires g0 <= w <= |s|
    requires forall q :: g0 <= q <= w ==> LazyClose(s, q).None?
    ensures TryFrom(s, g0, w).None?
    decreases w
  {
    if w > g0 {
      TryFromNone(s, g0, w - 1);
    }
  }

  /** No fence at or after `g0`: nothing matches from there. */
  lemma NoGroup(s: string, g0: nat)
    requires g0 <= |s|
    requires forall q :: g0 <= q ==> !FenceAt(s, q)
    ensures TryFrom(s, g0, SkipWhiteSpace(s, g0)).None?
  {
    forall q | g0 <= q <= SkipWhiteSpace(s, g0) ensures LazyClose(s, q).None? {
      LazyCloseNoFence(s, q);
    }
    TryFromNone(s, g0, SkipWhiteSpace(s, g0));
  }

  /** With a first fence `k` at or after `g0`, the group is the trimmed text between. */
  lemma Group(s: string, g0: nat, k: nat)
    requires g0 <= k && FenceAt(s, k)
    requires forall q :: g0 <= q < k ==> !FenceAt(s, q)
    ensures TryFrom(s, g0, SkipWhiteSpace(s, g0)).Some?
    ensures var m := TryFrom(s, g0, SkipWhiteSpace(s, g0)).value;
            s[m.0..m.1] == Trim(s[g0..k])
  {
    var w := SkipWhiteSpace(s, g0);
    assert w <= k;
    LazyCloseAtFence(s, w, k);
    var r := LazyClose(s, w).value;
    TrimSlice(s, g0, w, r, k);
  }

  lemma {:induction false} SearchNone(s: string, p: nat)
    requires p <= |s|
    requires forall q :: p <= q <= |s| ==> TryAt(s, q).None?
    ensures Search(s, p).None?
    decreases |s| - p
  {
    if p < |s| {
      SearchNone(s, p + 1);
    }
  }

  lemma {:induction false} SearchFinds(s: string, p: nat, i: nat)
    requires p <= i <= |s| && TryAt(s, i).Some?
    requires forall q :: p <= q < i ==> TryAt(s, q).None?
    ensures Search(s, p) == TryAt(s, i)
    decreases i - p
  {
    if p < i {
      SearchFinds(s, p + 1, i);
    }
  }

  /** The first fenced block's trimmed text when there is one, else the whole content. */
  lemma StripFenceSpec(s: string)
    ensures StripFence(s) == if FencedBlock(s).Some? then FencedBlock(s).value else s
  {
    var i := FirstFence(s, 0);
    if i.None? {
      SearchNone(s, 0);
    } else if FirstFence(s, i.value + 3).None? {
      UnclosedFence(s, i.value);
    } else {
      ClosedFence(s, i.value, FirstFence(s, i.value + 3).value);
    }
  }

  /** A first fence with no fence after it: the pattern finds nothing. */
  lemma UnclosedFence(s: string, i: nat)
    requires FirstFence(s, 0) == Some(i) && FirstFence(s, i + 3).None?
    ensures Search(s, 0).None?
  {
    forall q | 0 <= q <= |s| ensures TryAt(s, q).None? {
      if FenceAt(s, q) {
        if TagAt(s, q + 3) { NoGroup(s, q + 7); }
        NoGroup(s, q + 3);
      }
    }
    SearchNone(s, 0);
  }

  /** A first fence at `i` and the next at `k`: the pattern captures the block. */
  lemma ClosedFence(s: string, i: nat, k: nat)
    requires FirstFence(s, 0) == Some(i) && FirstFence(s, i + 3) == Some(k)
    ensures Search(s, 0).Some? && FencedBlock(s).Some?
    ensures var m := Search(s, 0).value; s[m.0..m.1] == FencedBlock(s).value
  {
    var g0 := if TagAt(s, i + 3) then i + 7 else i + 3;
    if TagAt(s, i + 3) {
      NoFenceInTag(s, i + 3);
    }
    Group(s, g0, k);
    SearchFinds(s, 0, i);
  }

  /** A fenced block's text neither starts nor ends with white space. */
  lemma FencedBlockTrimmed(s: string)
    requires FencedBlock(s).Some?
    ensures NoEdgeSpace(FencedBlock(s).value)
  {
    var i := FirstFence(s, 0).value;
    var k := FirstFence(s, i + 3).value;
    if TagAt(s, i + 3) {
      NoFenceInTag(s, i + 3);
      var t := s[i + 7..k];
      assert FencedBlock(s) == Some(Trim(t));
      TrimEdges(t);
    } else {
      var t := s[i + 3..k];
      assert FencedBlock(s) == Some(Trim(t));
      TrimEdges(t);
    }
  }

  // ---- the route -----------------------------------------------------------

  /** The request body as `req.json()` reads it: text that is not JSON, or a value. */
  datatype RequestBody = Malformed(message: string) | Body(value: Json)

  /** The model service's response body as `response.json()` reads it. */
  datatype ServiceBody = Unparsable(message: string) | Parsed(value: Json)

  /** What `fetch` to the model service gives: a network failure, or a response
      with its status, its body as text, and its body as JSON. */
  datatype ServiceReply = Unreachable(message: string) | Responded(status: int, text: string, body: ServiceBody)

  /** The `detail` of an error body: an error's message, or the message of an
      engine `TypeError` (such as destructuring `null`), whose wording is not modelled. */
  datatype Detail = Message(text: string) | EngineTypeError

  datatype ResponseBody = ErrorBody(error: string, detail: Option<Detail>) | Success(value: Json)

  datatype Response = Response(status: int, body: ResponseBody)

  /** The response, whether the model service was called, and the text handed to
      `jsonrepair` when it was. */
  datatype Outcome = Outcome(response: Response, serviceCalled: bool, repairInput: Option<string>)

  const MissingFields := "Missing fields: skills or role"
  const ServiceFailed := "Groq API request failed"
  const InvalidJson := "Invalid JSON format in LLM response"
  const MissingRoadmap := "Response missing valid roadmap array"
  const FetchFailed := "Failed to fetch roadmap from LLaMA 3"

  predicate Ok(status: int) {
    200 <= status <= 299
  }

  /** `data.choices?.[0]?.message?.content` on a value that is not `null`. */
  function Content(data: Json): Option<Json> {
    OptMember(OptMember(OptFirst(Member(data, "choices")), "message"), "content")
  }

  /** `json.roadmap` is truthy and an array. */
  predicate HasRoadmapArray(v: Json) {
    var r := Member(v, "roadmap");
    Truthy(r) && r.value.Array?
  }

  /** Everything after the model service answered OK with a JSON body. */
  function Unwrap(data: Json, repair: string -> Option<Json>): (o: Outcome)
    ensures o.serviceCalled
  {
    if data.Null? then Outcome(Response(500, ErrorBody(FetchFailed, Some(EngineTypeError))), true, None)
    else
      var content := AsString(Content(data));
      if content.None? then Outcome(Response(500, ErrorBody(InvalidJson, None)), true, None)
      else
        var raw := StripFence(content.value);
        var json := repair(raw);
        if json.None? then Outcome(Response(500, ErrorBody(InvalidJson, None)), true, Some(raw))
        else if json.value.Null? then Outcome(Response(500, ErrorBody(FetchFailed, Some(EngineTypeError))), true, Some(raw))
        else if !HasRoadmapArray(json.value) then Outcome(Response(500, ErrorBody(MissingRoadmap, None)), true, Some(raw))
        else Outcome(Response(200, Success(json.value)), true, Some(raw))
  }

  /** `POST`. */
  function Post(body: RequestBody, service: ServiceReply, repair: string -> Option<Json>): (o: Outcome)
    ensures o.response.status == 200 <==> o.response.body.Success?
    ensures o.response.body.Success? ==> HasRoadmapArray(o.response.body.value)
    ensures !o.serviceCalled ==> o.repairInput.None?
  {
    match body
    case Malformed(m) => Outcome(Response(500, ErrorBody(FetchFailed, Some(Message(m)))), false, None)
    case Body(v) =>
      if v.Null? then Outcome(Response(500, ErrorBody(FetchFailed, Some(EngineTypeError))), false, None)
      else if !Truthy(Member(v, "skills")) || !Truthy(Member(v, "role")) then
        Outcome(Response(400, ErrorBody(MissingFields, None)), false, None)
      else
        match service
        case Unreachable(m) => Outcome(Response(500, ErrorBody(FetchFailed, Some(Message(m)))), true, None)
        case Responded(status, text, reply) =>
          if !Ok(status) then Outcome(Response(status, ErrorBody(ServiceFailed, Some(Message(text)))), true, None)
          else
            match reply
            case Unparsable(m) => Outcome(Response(500, ErrorBody(FetchFailed, Some(Message(m)))), true, None)
            case Parsed(data) => Unwrap(data, repair)
  }

  /** The request has both fields when it is a non-null JSON value whose `skills`
      and `role` are truthy. */
  predicate HasFields(body: RequestBody) {
    body.Body? && !body.value.Null? && Truthy(Member(body.value, "skills")) && Truthy(Member(body.value, "role"))
  }

  /** A request whose `skills` or `role` is missing or falsy gets 400 and the model
      service is not called; a request with both fields always calls it. */
  lemma MissingFieldsRejected(body: RequestBody, service: ServiceReply, repair: string -> Option<Json>)
    requires body.Body? && !body.value.Null?
    ensures !HasFields(body) <==> Post(body, service, repair).response == Response(400, ErrorBody(MissingFields, None))
    ensures !HasFields(body) ==> !Post(body, service, repair).serviceCalled
    ensures HasFields(body) ==> Post(body, service, repair).serviceCalled
  {
  }

  /** A response from the model service outside 200..299 is passed on with its
      status and its text as the detail. */
  lemma ServiceStatusPassedOn(body: RequestBody, status: int, text: string, reply: ServiceBody, repair: string -> Option<Json>)
    requires HasFields(body) && !Ok(status)
    ensures Post(body, Responded(status, text, reply), repair).response ==
            Response(status, ErrorBody(ServiceFailed, Some(Message(text))))
  {
  }

  /** After an OK reply whose content is a string, exactly the fence-stripped
      content is repaired; a failed repair or parse gives 500 and the invalid-JSON
      error, and a content that is not a string gives the same. */
  lemma RepairedText(body: RequestBody, status: int, text: string, data: Json, repair: string -> Option<Json>)
    requires HasFields(body) && Ok(status) && !data.Null?
    ensures var o := Post(body, Responded(status, text, Parsed(data)), repair);
            var content := Content(data);
            && (content.Some? && content.value.Str? ==>
                  o.repairInput == Some(if FencedBlock(content.value.s).Some? then FencedBlock(content.value.s).value
                                        else content.value.s))
            && (!(content.Some? && content.value.Str?) ==> o.response == Response(500, ErrorBody(InvalidJson, None)))
            && (o.repairInput.Some? && repair(o.repairInput.value).None? ==>
                  o.response == Response(500, ErrorBody(InvalidJson, None)))
  {
    var content := Content(data);
    if content.Some? && content.value.Str? {
      StripFenceSpec(content.value.s);
    }
  }

  /** A parsed value without a truthy `roadmap` array gives 500 and the roadmap
      error; one with it is returned unchanged with status 200. */
  lemma RoadmapChecked(body: RequestBody, status: int, text: string, data: Json, repair: string -> Option<Json>)
    requires HasFields(body) && Ok(status) && !data.Null?
    requires AsString(Content(data)).Some?
    requires var j := repair(StripFence(AsString(Content(data)).value)); j.Some? && !j.value.Null?
    ensures var o := Post(body, Responded(status, text, Parsed(data)), repair);
            var j := repair(StripFence(AsString(Content(data)).value)).value;
            && (!HasRoadmapArray(j) ==> o.response == Response(500, ErrorBody(MissingRoadmap, None)))
            && (HasRoadmapArray(j) ==> o.response == Response(200, Success(j)))
  {
  }

  /** A successful response needs a request with both fields and an OK reply. */
  lemma SuccessNeedsEverything(body: RequestBody, service: ServiceReply, repair: string -> Option<Json>)
    requires Post(body, service, repair).response.body.Success?
    ensures HasFields(body) && service.Responded? && Ok(service.status) && service.body.Parsed?
    ensures Post(body, service, repair).repairInput.Some?
    ensures repair(Post(body, service, repair).repairInput.value) == Some(Post(body, service, repair).response.body.value)
  {
  }
}
