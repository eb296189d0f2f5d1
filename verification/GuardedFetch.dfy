/**
 * A `fetch` that asks a guard before every request it makes, following redirects itself one hop at a time
 * (packages/kernel-utils/src/guarded-fetch.ts; "HTTP-redirect fetch" in section 4 of the WHATWG Fetch
 * Standard).
 */
module GuardedFetch {
  import opened Prelude
  import SubresourceIntegrity

  // ------------------------------------------------------------------ requests and responses

  datatype Url = Url(protocol: string, hostname: string, port: string, path: string)

  /** A stream can be sent once; everything else can be sent again. */
  datatype Body = NoBody | Replayable(content: string) | Stream(id: nat)

  datatype RedirectMode = Follow | Manual | Refuse

  type Headers = map<string, string>

  /** A response's own body may be absent, and reading it may fail. */
  datatype Response = Response(
    status: nat,
    opaqueRedirect: bool,
    redirected: bool,
    location: Option<string>,
    hasBody: bool,
    readable: bool,
    bytes: string)

  /** What a caller's `init`, or the `Request` it wraps, says of a request. */
  datatype Parts = Parts(
    verb: Option<string>,
    headers: Option<Headers>,
    body: Body,
    redirect: Option<RedirectMode>,
    integrity: Option<string>)

  datatype Call = Call(url: Url, init: Parts, request: Option<Parts>, dispatcher: bool)

  const NO_PARTS := Parts(None, None, NoBody, None, None)

  function Inner(call: Call): Parts {
    if call.request.Some? then call.request.value else NO_PARTS
  }

  function Or<T>(a: Option<T>, b: Option<T>, default: T): T {
    if a.Some? then a.value else if b.Some? then b.value else default
  }

  /** `init` wins wherever it names the same thing as the `Request`. */
  function VerbOf(call: Call): string {
    Or(call.init.verb, Inner(call).verb, "GET")
  }

  function HeadersOf(call: Call): Headers {
    Or(call.init.headers, Inner(call).headers, map[])
  }

  function BodyOf(call: Call): Body {
    if call.init.body.NoBody? then Inner(call).body else call.init.body
  }

  function ModeOf(call: Call): RedirectMode {
    Or(call.init.redirect, Inner(call).redirect, Follow)
  }

  function IntegrityOf(call: Call): string {
    Or(call.init.integrity, Inner(call).integrity, "")
  }

  /** One request as it was sent, and what came back, if anything did. */
  datatype Hop = Hop(url: Url, verb: string, headers: Headers, body: Body, response: Option<Response>)

  /** The transport, the guard, URL resolution and digests: each asked at most once per hop, and free to answer anything. */
  datatype World = World(
    send: (nat, Url, string, Headers, Body) -> Option<Response>,
    guard: (nat, Url) -> bool,
    resolve: (string, Url) -> Option<Url>,
    digest: (nat, string) -> string)

  // ------------------------------------------------------------------ the rules of one hop

  const MAX_REDIRECTS: nat := 20

  predicate IsRedirect(status: nat) {
    status == 301 || status == 302 || status == 303 || status == 307 || status == 308
  }

  predicate Fetchable(url: Url) {
    url.protocol == "http:" || url.protocol == "https:"
  }

  predicate SameOrigin(a: Url, b: Url) {
    a.protocol == b.protocol && a.hostname == b.hostname && a.port == b.port
  }

  function Upper(s: string): (r: string)
    ensures |r| == |s|
  {
    seq(|s|, i requires 0 <= i < |s| => if 'a' <= s[i] <= 'z' then s[i] - 'a' + 'A' else s[i])
  }

  predicate Blank(s: string) {
    forall i | 0 <= i < |s| :: SubresourceIntegrity.Whitespace(s[i])
  }

  /** The response redirects, and says where to. */
  predicate Points(r: Response) {
    IsRedirect(r.status) && r.location.Some? && !Blank(r.location.value)
  }

  /** A response that hides its target, or that has followed a chain itself, cannot be checked. */
  predicate Visible(r: Response) {
    !r.opaqueRedirect && !r.redirected
  }

  const BODY_HEADERS: set<string> := {"content-encoding", "content-language", "content-location", "content-type", "content-length"}
  const CREDENTIAL_HEADERS: set<string> := {"authorization", "cookie", "proxy-authorization"}

  /** Whether a redirect rewrites the request to a GET without a body. */
  predicate BecomesGet(status: nat, verb: string) {
    || (status == 303 && Upper(verb) != "GET" && Upper(verb) != "HEAD")
    || ((status == 301 || status == 302) && Upper(verb) == "POST")
  }

  function VerbAfter(hop: Hop, status: nat): string {
    if BecomesGet(status, hop.verb) then "GET" else hop.verb
  }

  function BodyAfter(hop: Hop, status: nat): Body {
    if BecomesGet(status, hop.verb) then NoBody else hop.body
  }

  function HeadersAfter(hop: Hop, status: nat, next: Url): Headers {
    var kept := if BecomesGet(status, hop.verb) then hop.headers - BODY_HEADERS else hop.headers;
    if SameOrigin(hop.url, next) then kept else kept - CREDENTIAL_HEADERS
  }

  /** The second request is what following the first one's response makes of it. */
  predicate Follows(world: World, a: Hop, b: Hop) {
    && a.response.Some? && Visible(a.response.value) && Points(a.response.value)
    && world.resolve(a.response.value.location.value, a.url) == Some(b.url) && Fetchable(b.url)
    && b.verb == VerbAfter(a, a.response.value.status) && b.body == BodyAfter(a, a.response.value.status)
    && b.headers == HeadersAfter(a, a.response.value.status, b.url) && !b.body.Stream?
  }

  // ------------------------------------------------------------------ integrity

  datatype Failure =
    | HasDispatcher | GuardRefused | TransportFailed | NotVisible | RedirectRefused | TooManyRedirects
    | BadLocation | BadProtocol | BodyGone | NoAlgorithm | NothingToCheck | Unreadable | DigestMismatch

  /** What checking a response's digest comes to: nothing wrong, or why it is refused. */
  function Verdict(world: World, r: Response, integrity: string): Option<Failure> {
    var digests := SubresourceIntegrity.Understood(SubresourceIntegrity.Words(integrity));
    if integrity == "" then None
    else if digests == [] then Some(NoAlgorithm)
    else if !r.hasBody then Some(NothingToCheck)
    else if !r.readable then Some(Unreadable)
    else
      var strength := Strongest(digests);
      if SubresourceIntegrity.Matches(SubresourceIntegrity.Check(strength, SubresourceIntegrity.ValuesFor(digests, strength)),
           world.digest(strength, r.bytes)) then None
      else Some(DigestMismatch)
  }

  function Strongest(digests: seq<SubresourceIntegrity.Digest>): (s: nat)
    requires digests != []
    ensures SubresourceIntegrity.IsStrongest(digests, s)
    decreases |digests|
  {
    if |digests| == 1 then assert digests[0].strength == digests[0].strength; digests[0].strength
    else
      var rest := Strongest(digests[1..]);
      var s := if digests[0].strength >= rest then digests[0].strength else rest;
      StrongestOfMore(digests, rest, s);
      s
  }

  lemma StrongestOfMore(digests: seq<SubresourceIntegrity.Digest>, rest: nat, s: nat)
    requires |digests| > 1 && SubresourceIntegrity.IsStrongest(digests[1..], rest)
    requires s == if digests[0].strength >= rest then digests[0].strength else rest
    ensures SubresourceIntegrity.IsStrongest(digests, s)
  {
    var i :| 0 <= i < |digests[1..]| && digests[1..][i].strength == rest;
    assert digests[i + 1].strength == rest;
    forall j | 0 <= j < |digests| ensures digests[j].strength <= s {
      if j > 0 { assert digests[1..][j - 1].strength <= rest; }
    }
  }

  lemma StrongestIsOne(digests: seq<SubresourceIntegrity.Digest>, s: nat)
    requires SubresourceIntegrity.IsStrongest(digests, s)
    ensures digests != [] && Strongest(digests) == s
  {
  }

  // ------------------------------------------------------------------ the walk

  datatype Outcome = Fetched(response: Response, redirected: bool) | Failed(why: Failure)

  datatype Event = Asked(url: Url) | Sent(hop: Hop)

  /** Each request right after the guard's approval of its URL. */
  function InTurn(hops: seq<Hop>): seq<Event> {
    if hops == [] then [] else InTurn(hops[..|hops| - 1]) + [Asked(hops[|hops| - 1].url), Sent(hops[|hops| - 1])]
  }

  /** What has been requested so far is the caller's request and, after it, what each response redirected to. */
  predicate Chain(world: World, call: Call, hops: seq<Hop>) {
    && (hops != [] ==>
          hops[0].url == call.url && hops[0].verb == VerbOf(call) && hops[0].headers == HeadersOf(call) && hops[0].body == BodyOf(call))
    && (|hops| > 1 ==> ModeOf(call).Follow?)
    && (forall i | 0 < i < |hops| :: Follows(world, hops[i - 1], hops[i]))
    && (forall i | 0 <= i < |hops| :: world.guard(i, hops[i].url))
    && (forall i | 0 <= i < |hops| ::
          hops[i].response == world.send(i, hops[i].url, hops[i].verb, hops[i].headers, hops[i].body))
  }

  /** Why the walk ended where it did. `asked` is the URL the guard was asked about after the last request, if it was. */
  predicate Ends(world: World, call: Call, hops: seq<Hop>, asked: Option<Url>, outcome: Outcome) {
    if hops == [] then
      (if call.dispatcher then outcome == Failed(HasDispatcher) && asked.None?
       else outcome == Failed(GuardRefused) && asked == Some(call.url) && !world.guard(0, call.url))
    else
      var last := hops[|hops| - 1];
      !call.dispatcher &&
      if last.response.None? then outcome == Failed(TransportFailed) && asked.None?
      else
        var r := last.response.value;
        if !Visible(r) then outcome == Failed(NotVisible) && asked.None?
        else if IsRedirect(r.status) && ModeOf(call).Refuse? then outcome == Failed(RedirectRefused) && asked.None?
        else if !Points(r) || ModeOf(call).Manual? then
          && asked.None?
          && outcome == (match Verdict(world, r, IntegrityOf(call)) case Some(why) => Failed(why) case None => Fetched(r, |hops| > 1))
        else if |hops| > 20 then outcome == Failed(TooManyRedirects) && asked.None?
        else
          match world.resolve(r.location.value, last.url)
          case None => outcome == Failed(BadLocation) && asked.None?
          case Some(next) =>
            if !Fetchable(next) then outcome == Failed(BadProtocol) && asked.None?
            else
              && asked == Some(next)
              && outcome == Failed(if world.guard(|hops|, next) then BodyGone else GuardRefused)
              && (world.guard(|hops|, next) ==> BodyAfter(last, r.status).Stream?)
  }

  /** Every response but the one returned was discarded, unless it has no body, or reading it is what failed. */
  predicate LetGo(hops: seq<Hop>, discarded: set<nat>, outcome: Outcome) {
    forall i | 0 <= i < |hops| && hops[i].response.Some? ::
      if i == |hops| - 1 && outcome.Fetched? then i !in discarded
      else i in discarded || !hops[i].response.value.hasBody || (i == |hops| - 1 && outcome == Failed(Unreadable))
  }

  predicate AllDiscarded(hops: seq<Hop>, n: nat, discarded: set<nat>) {
    && (forall i | 0 <= i < n && i < |hops| && hops[i].response.Some? :: i in discarded || !hops[i].response.value.hasBody)
    && (forall i | i in discarded :: i < n)
  }

  method CheckIntegrity(world: World, r: Response, integrity: string) returns (why: Option<Failure>, discard: bool)
    ensures why == Verdict(world, r, integrity)
    ensures why.None? ==> !discard
    ensures why.Some? ==> discard || !r.hasBody || why == Some(Unreadable)
  {
    discard := false;
    if integrity == "" { return None, false; }
    var check := SubresourceIntegrity.ParseIntegrityMetadata(integrity);
    if check.None? { return Some(NoAlgorithm), true; }
    StrongestIsOne(SubresourceIntegrity.Understood(SubresourceIntegrity.Words(integrity)), check.value.strength);
    if !r.hasBody { return Some(NothingToCheck), false; }
    if !r.readable { return Some(Unreadable), false; }
    if !SubresourceIntegrity.Matches(check.value, world.digest(check.value.strength, r.bytes)) {
      return Some(DigestMismatch), true;
    }
    why := None;
  }

  lemma ChainGrows(world: World, call: Call, hops: seq<Hop>, next: Hop)
    requires Chain(world, call, hops) && hops != [] && ModeOf(call).Follow? && Follows(world, hops[|hops| - 1], next)
    requires world.guard(|hops|, next.url) && next.response == world.send(|hops|, next.url, next.verb, next.headers, next.body)
    ensures Chain(world, call, hops + [next])
  {
    var longer := hops + [next];
    forall i | 0 < i < |longer| ensures Follows(world, longer[i - 1], longer[i]) {
      if i < |hops| { assert Follows(world, hops[i - 1], hops[i]); }
    }
  }

  lemma TurnsGrow(hops: seq<Hop>, next: Hop)
    ensures InTurn(hops + [next]) == InTurn(hops) + [Asked(next.url), Sent(next)]
  {
    assert (hops + [next])[..|hops|] == hops;
  }

  /** Make one request, and insist on being able to see where it points next. */
  method RequestOnce(world: World, n: nat, url: Url, verb: string, headers: Headers, body: Body) returns (hop: Hop, why: Option<Failure>, discard: bool)
    ensures hop == Hop(url, verb, headers, body, world.send(n, url, verb, headers, body))
    ensures why == (if hop.response.None? then Some(TransportFailed) else if !Visible(hop.response.value) then Some(NotVisible) else None)
    ensures discard <==> why == Some(NotVisible)
  {
    hop := Hop(url, verb, headers, body, world.send(n, url, verb, headers, body));
    why, discard := None, false;
    if hop.response.None? { return hop, Some(TransportFailed), false; }
    if hop.response.value.opaqueRedirect || hop.response.value.redirected { return hop, Some(NotVisible), true; }
  }

  /** What follows a visible response: nothing more, an end, or a request the guard has approved. */
  datatype Turn = Final | Stopped(why: Failure, asked: Option<Url>) | Onward(url: Url)

  /** The turn taken after request number `n`. */
  predicate Turns(world: World, mode: RedirectMode, n: nat, last: Hop, turn: Turn)
    requires last.response.Some?
  {
    var r := last.response.value;
    if IsRedirect(r.status) && mode.Refuse? then turn == Stopped(RedirectRefused, None)
    else if !Points(r) || mode.Manual? then turn == Final
    else if n > MAX_REDIRECTS then turn == Stopped(TooManyRedirects, None)
    else
      match world.resolve(r.location.value, last.url)
      case None => turn == Stopped(BadLocation, None)
      case Some(next) =>
        if !Fetchable(next) then turn == Stopped(BadProtocol, None)
        else if !world.guard(n, next) then turn == Stopped(GuardRefused, Some(next))
        else if BodyAfter(last, r.status).Stream? then turn == Stopped(BodyGone, Some(next))
        else turn == Onward(next)
  }

  /** Look where a response points, and ask the guard about it. */
  method TakeTurn(world: World, mode: RedirectMode, n: nat, last: Hop) returns (turn: Turn, discard: bool)
    requires last.response.Some?
    ensures Turns(world, mode, n, last, turn)
    ensures discard <==> !turn.Final?
  {
    hide BodyAfter;
    var r := last.response.value;
    discard := false;
    if !IsRedirect(r.status) || mode.Manual? { return Final, false; }
    if mode.Refuse? { return Stopped(RedirectRefused, None), true; }
    if r.location.None? || Blank(r.location.value) { return Final, false; }
    if n > MAX_REDIRECTS { return Stopped(TooManyRedirects, None), true; }
    var next := world.resolve(r.location.value, last.url);
    if next.None? { return Stopped(BadLocation, None), true; }
    if !Fetchable(next.value) { return Stopped(BadProtocol, None), true; }
    if !world.guard(n, next.value) { return Stopped(GuardRefused, next), true; }
    if BodyAfter(last, r.status).Stream? { return Stopped(BodyGone, next), true; }
    turn, discard := Onward(next.value), true;
  }

  lemma StoppingEnds(world: World, call: Call, hops: seq<Hop>, why: Failure, asked: Option<Url>)
    requires hops != [] && !call.dispatcher && hops[|hops| - 1].response.Some? && Visible(hops[|hops| - 1].response.value)
    requires Turns(world, ModeOf(call), |hops|, hops[|hops| - 1], Stopped(why, asked))
    ensures Ends(world, call, hops, asked, Failed(why)) && why != Unreadable
  {
    hide BodyAfter, Verdict;
  }

  lemma FinalEnds(world: World, call: Call, hops: seq<Hop>, outcome: Outcome)
    requires hops != [] && !call.dispatcher && hops[|hops| - 1].response.Some? && Visible(hops[|hops| - 1].response.value)
    requires Turns(world, ModeOf(call), |hops|, hops[|hops| - 1], Final)
    requires outcome == match Verdict(world, hops[|hops| - 1].response.value, IntegrityOf(call))
                        case Some(why) => Failed(why)
                        case None => Fetched(hops[|hops| - 1].response.value, |hops| > 1)
    ensures Ends(world, call, hops, None, outcome)
  {
    hide BodyAfter, Verdict;
  }

  lemma RequestEnds(world: World, call: Call, hops: seq<Hop>, why: Failure)
    requires hops != [] && !call.dispatcher
    requires Some(why) == (if hops[|hops| - 1].response.None? then Some(TransportFailed)
                           else if !Visible(hops[|hops| - 1].response.value) then Some(NotVisible) else None)
    ensures Ends(world, call, hops, None, Failed(why)) && why != Unreadable
  {
    hide BodyAfter, Verdict;
  }

  /** A hop that goes on is what the rules make of the one before. */
  lemma OnwardFollows(world: World, call: Call, hops: seq<Hop>, next: Hop)
    requires Chain(world, call, hops) && hops != [] && hops[|hops| - 1].response.Some? && Visible(hops[|hops| - 1].response.value)
    requires Turns(world, ModeOf(call), |hops|, hops[|hops| - 1], Onward(next.url))
    requires var last, status := hops[|hops| - 1], hops[|hops| - 1].response.value.status;
             next == Hop(next.url, VerbAfter(last, status), HeadersAfter(last, status, next.url), BodyAfter(last, status),
               world.send(|hops|, next.url, VerbAfter(last, status), HeadersAfter(last, status, next.url), BodyAfter(last, status)))
    ensures Chain(world, call, hops + [next]) && |hops| <= MAX_REDIRECTS
  {
    hide HeadersAfter, VerbAfter;
    ChainGrows(world, call, hops, next);
  }

  lemma FirstChain(world: World, call: Call, hop: Hop)
    requires world.guard(0, call.url)
    requires hop == Hop(call.url, VerbOf(call), HeadersOf(call), BodyOf(call), world.send(0, call.url, VerbOf(call), HeadersOf(call), BodyOf(call)))
    ensures Chain(world, call, [hop]) && InTurn([hop]) == [Asked(call.url)] + [Sent(hop)]
  {
    assert [hop][..0] == [];
  }

  /** Ask the guard, make the request, look where it points, and go on from there. */
  method Fetch(world: World, call: Call)
      returns (outcome: Outcome, hops: seq<Hop>, asked: Option<Url>, events: seq<Event>, discarded: set<nat>)
    ensures Chain(world, call, hops) && |hops| <= 21
    ensures Ends(world, call, hops, asked, outcome)
    ensures events == InTurn(hops) + if asked.Some? then [Asked(asked.value)] else []
    ensures LetGo(hops, discarded, outcome)
  {
    hide Turns, Verdict, HeadersAfter, BodyAfter, VerbAfter, Follows, InTurn, Points;
    hops, asked, events, discarded := [], None, [], {};
    NothingYet(world, call);
    if call.dispatcher { return Failed(HasDispatcher), hops, asked, events, discarded; }
    events := [Asked(call.url)];
    if !world.guard(0, call.url) { return Failed(GuardRefused), hops, Some(call.url), events, discarded; }
    outcome, hops, asked, events, discarded := Walk(world, call);
  }

  lemma NothingYet(world: World, call: Call)
    ensures Chain(world, call, []) && InTurn([]) == []
  {
  }

  /** The walk, the guard having approved the caller's own URL. */
  method Walk(world: World, call: Call)
      returns (outcome: Outcome, hops: seq<Hop>, asked: Option<Url>, events: seq<Event>, discarded: set<nat>)
    requires !call.dispatcher && world.guard(0, call.url)
    ensures Chain(world, call, hops) && |hops| <= MAX_REDIRECTS + 1
    ensures Ends(world, call, hops, asked, outcome)
    ensures events == InTurn(hops) + if asked.Some? then [Asked(asked.value)] else []
    ensures LetGo(hops, discarded, outcome)
  {
    hide Turns, Verdict, HeadersAfter, BodyAfter, VerbAfter, Follows, InTurn, Points, Chain, Ends;
    asked := None;
    var hop, why, discard := RequestOnce(world, 0, call.url, VerbOf(call), HeadersOf(call), BodyOf(call));
    FirstChain(world, call, hop);
    hops, events, discarded := [hop], [Asked(call.url)] + [Sent(hop)], if discard then {0} else {};
    if why.Some? {
      RequestEnds(world, call, hops, why.value);
      return Failed(why.value), hops, asked, events, discarded;
    }
    while true
      invariant 0 < |hops| <= MAX_REDIRECTS + 1 && Chain(world, call, hops) && events == InTurn(hops) && asked.None?
      invariant hops[|hops| - 1].response.Some? && Visible(hops[|hops| - 1].response.value)
      invariant AllDiscarded(hops, |hops| - 1, discarded)
      decreases MAX_REDIRECTS + 1 - |hops|
    {
      var n := |hops| - 1;
      var last, status := hops[n], hops[n].response.value.status;
      var turn;
      turn, discard := TakeTurn(world, ModeOf(call), n + 1, last);
      if turn.Final? { break; }
      discarded := discarded + {n};
      if turn.Stopped? {
        StoppingEnds(world, call, hops, turn.why, turn.asked);
        return Failed(turn.why), hops, turn.asked, events + if turn.asked.Some? then [Asked(turn.asked.value)] else [], discarded;
      }
      hop, why, discard := RequestOnce(world, n + 1, turn.url, VerbAfter(last, status), HeadersAfter(last, status, turn.url), BodyAfter(last, status));
      OnwardFollows(world, call, hops, hop);
      TurnsGrow(hops, hop);
      hops, events := hops + [hop], events + [Asked(turn.url), Sent(hop)];
      if discard { discarded := discarded + {n + 1}; }
      if why.Some? {
        RequestEnds(world, call, hops, why.value);
        return Failed(why.value), hops, asked, events, discarded;
      }
    }
    var n := |hops| - 1;
    var refused, abandon := CheckIntegrity(world, hops[n].response.value, IntegrityOf(call));
    if abandon { discarded := discarded + {n}; }
    outcome := if refused.Some? then Failed(refused.value) else Fetched(hops[n].response.value, |hops| > 1);
    FinalEnds(world, call, hops, outcome);
  }

  // ------------------------------------------------------------------ what holds of every chain

  /** The name, in whatever case it is written. */
  predicate IsWord(s: string, word: string)
    requires forall i | 0 <= i < |word| :: 'A' <= word[i] <= 'Z'
  {
    |s| == |word| && forall i | 0 <= i < |s| :: s[i] == word[i] || s[i] == word[i] - 'A' + 'a'
  }

  lemma UpperIsWord(s: string, word: string)
    requires forall i | 0 <= i < |word| :: 'A' <= word[i] <= 'Z'
    ensures Upper(s) == word <==> IsWord(s, word)
  {
    if Upper(s) == word {
      forall i | 0 <= i < |s| ensures s[i] == word[i] || s[i] == word[i] - 'A' + 'a' { assert Upper(s)[i] == word[i]; }
    }
    if IsWord(s, word) { assert forall i | 0 <= i < |s| :: Upper(s)[i] == word[i]; }
  }

  /** A redirect after which the next request is a GET, by the standard. */
  predicate DropsBody(status: nat, verb: string) {
    || (status == 303 && !IsWord(verb, "GET") && !IsWord(verb, "HEAD"))
    || ((status == 301 || status == 302) && IsWord(verb, "POST"))
  }

  predicate FromOneOrigin(a: Url, b: Url) {
    a.protocol == b.protocol && a.hostname == b.hostname && a.port == b.port
  }

  predicate Carries(hop: Hop, name: string) {
    name in hop.headers
  }

  /** The headers that describe a body. */
  predicate DescribesBody(name: string) {
    name == "content-encoding" || name == "content-language" || name == "content-location" || name == "content-type" || name == "content-length"
  }

  predicate IsCredential(name: string) {
    name == "authorization" || name == "cookie" || name == "proxy-authorization"
  }

  /**
   * Between two requests of a walk stands a visible redirect. After 303 to a method other than GET and HEAD, or 301 or
   * 302 to a POST, the next is a GET without a body and without the headers that describe one; otherwise method and
   * body stay. Credentials go on leaving the origin, and any other header stays as it was.
   */
  lemma RedirectsAsTheStandardSays(world: World, call: Call, hops: seq<Hop>, i: nat)
    requires Chain(world, call, hops) && i + 1 < |hops|
    ensures var a, b := hops[i], hops[i + 1];
            && a.response.Some? && var r := a.response.value;
            && RedirectStatus(r.status) && !r.opaqueRedirect && !r.redirected && r.location.Some? && world.resolve(r.location.value, a.url) == Some(b.url)
            && (b.url.protocol == "http:" || b.url.protocol == "https:")
            && (if DropsBody(r.status, a.verb) then b.verb == "GET" && b.body.NoBody? && forall name :: Carries(b, name) ==> !DescribesBody(name)
                else b.verb == a.verb && b.body == a.body)
            && (!FromOneOrigin(a.url, b.url) ==> forall name :: Carries(b, name) ==> !IsCredential(name))
            && (forall name | Carries(a, name) ::
                  (IsCredential(name) && !FromOneOrigin(a.url, b.url)) || (DescribesBody(name) && DropsBody(r.status, a.verb))
                  || (Carries(b, name) && b.headers[name] == a.headers[name]))
  {
    var a, b := hops[i], hops[i + 1];
    assert Follows(world, hops[i + 1 - 1], hops[i + 1]);
    UpperIsWord(a.verb, "GET");
    UpperIsWord(a.verb, "HEAD");
    UpperIsWord(a.verb, "POST");
  }

  /** A credential header dropped on leaving an origin, its scheme, host or port, is in no later request. */
  lemma {:induction false} CredentialsStayBehind(world: World, call: Call, hops: seq<Hop>, i: nat, j: nat)
    requires Chain(world, call, hops) && i < j < |hops|
    requires var a, b := hops[i].url, hops[i + 1].url; a.protocol != b.protocol || a.hostname != b.hostname || a.port != b.port
    ensures "authorization" !in hops[j].headers && "cookie" !in hops[j].headers && "proxy-authorization" !in hops[j].headers
    decreases j
  {
    assert Follows(world, hops[j - 1], hops[j]);
    if j > i + 1 { CredentialsStayBehind(world, call, hops, i, j - 1); }
  }

  /** Headers are only ever dropped: what a later request carries, the caller gave. */
  lemma {:induction false} HeadersOnlyShrink(world: World, call: Call, hops: seq<Hop>, j: nat)
    requires Chain(world, call, hops) && j < |hops|
    ensures hops[j].headers.Keys <= HeadersOf(call).Keys
    ensures forall name | name in hops[j].headers :: hops[j].headers[name] == HeadersOf(call)[name]
    decreases j
  {
    if j > 0 {
      assert Follows(world, hops[j - 1], hops[j]);
      HeadersOnlyShrink(world, call, hops, j - 1);
    }
  }

  /** A body that cannot be sent again is sent in the first request alone. */
  lemma StreamsAreSentOnce(world: World, call: Call, hops: seq<Hop>, i: nat)
    requires Chain(world, call, hops) && 0 < i < |hops|
    ensures !hops[i].body.Stream?
  {
    assert Follows(world, hops[i - 1], hops[i]);
  }

  /** The first request is the caller's own: what its `init` says, or else the request it wraps, or else a GET that follows redirects. */
  lemma FirstRequestIsTheCallers(world: World, call: Call, hops: seq<Hop>)
    requires Chain(world, call, hops) && hops != []
    ensures hops[0].url == call.url
    ensures call.init.verb.Some? ==> hops[0].verb == call.init.verb.value
    ensures call.init.verb.None? && call.request.Some? && call.request.value.verb.Some? ==> hops[0].verb == call.request.value.verb.value
    ensures call.init.verb.None? && (call.request.None? || call.request.value.verb.None?) ==> hops[0].verb == "GET"
    ensures call.init.headers.Some? ==> hops[0].headers == call.init.headers.value
    ensures call.init.headers.None? && call.request.Some? && call.request.value.headers.Some? ==> hops[0].headers == call.request.value.headers.value
    ensures !call.init.body.NoBody? ==> hops[0].body == call.init.body
    ensures call.init.body.NoBody? && call.request.Some? ==> hops[0].body == call.request.value.body
    ensures |hops| > 1 && call.init.redirect.Some? ==> call.init.redirect.value.Follow?
    ensures |hops| > 1 && call.init.redirect.None? && call.request.Some? && call.request.value.redirect.Some? ==> call.request.value.redirect.value.Follow?
  {
  }

  predicate RedirectStatus(status: nat) {
    status in {301, 302, 303, 307, 308}
  }

  /** A response that says where to go next, read off its status and its header. */
  predicate SaysWhere(r: Response) {
    && RedirectStatus(r.status) && r.location.Some?
    && exists i | 0 <= i < |r.location.value| ::
         var c := r.location.value[i]; c != ' ' && c != '\t' && c != '\n' && c != '\r' && c != '\U{000C}'
  }

  /** The mode the caller asked for, or else that of the request it wraps, or else to follow. */
  predicate Asks(call: Call, mode: RedirectMode) {
    if call.init.redirect.Some? then call.init.redirect.value == mode
    else if call.request.Some? && call.request.value.redirect.Some? then call.request.value.redirect.value == mode
    else mode.Follow?
  }

  /**
   * A walk that ends at a response it may read ends for one reason: what it is to follow is one redirect too many,
   * leads nowhere, or nowhere over HTTP, or where the guard refuses, or would have a spent body sent again; or the
   * caller refuses redirects; or there is nothing to follow, and the digest decides.
   */
  lemma EndsForOneReason(world: World, call: Call, hops: seq<Hop>, asked: Option<Url>, outcome: Outcome)
    requires Ends(world, call, hops, asked, outcome) && hops != []
    requires hops[|hops| - 1].response.Some? && !hops[|hops| - 1].response.value.opaqueRedirect && !hops[|hops| - 1].response.value.redirected
    ensures var last := hops[|hops| - 1];
            var r := last.response.value;
            && (SaysWhere(r) && Asks(call, Follow) ==>
                  if |hops| > 20 then outcome == Failed(TooManyRedirects)
                  else match world.resolve(r.location.value, last.url)
                       case None => outcome == Failed(BadLocation)
                       case Some(next) =>
                         if next.protocol != "http:" && next.protocol != "https:" then outcome == Failed(BadProtocol)
                         else asked == Some(next)
                              && if world.guard(|hops|, next) then outcome == Failed(BodyGone) && last.body.Stream? && !DropsBody(r.status, last.verb)
                                 else outcome == Failed(GuardRefused))
            && (RedirectStatus(r.status) && Asks(call, Refuse) ==> outcome == Failed(RedirectRefused))
            && ((!SaysWhere(r) && !(RedirectStatus(r.status) && Asks(call, Refuse))) || Asks(call, Manual) ==>
                  asked.None? && outcome == match Verdict(world, r, IntegrityOf(call)) case Some(why) => Failed(why) case None => Fetched(r, |hops| > 1))
  {
    hide Verdict;
    var last := hops[|hops| - 1];
    UpperIsWord(last.verb, "GET");
    UpperIsWord(last.verb, "HEAD");
    UpperIsWord(last.verb, "POST");
    PointsSaysWhere(last.response.value);
  }

  lemma PointsSaysWhere(r: Response)
    ensures Points(r) <==> SaysWhere(r)
  {
  }

  /** The response cannot be seen through: it failed, or it hides where it leads, or has been followed already. */
  lemma UnseenEnds(world: World, call: Call, hops: seq<Hop>, asked: Option<Url>, outcome: Outcome)
    requires Ends(world, call, hops, asked, outcome) && hops != []
    ensures hops[|hops| - 1].response.None? ==> outcome == Failed(TransportFailed)
    ensures hops[|hops| - 1].response.Some? && (hops[|hops| - 1].response.value.opaqueRedirect || hops[|hops| - 1].response.value.redirected) ==>
              outcome == Failed(NotVisible)
  {
    hide Verdict;
  }

  /** Some digest of the strongest algorithm the metadata names is written so. */
  predicate SpelledStrongest(integrity: string, strength: nat, digest: seq<SubresourceIntegrity.Byte>) {
    var digests := SubresourceIntegrity.Understood(SubresourceIntegrity.Words(integrity));
    && (forall i | 0 <= i < |digests| :: digests[i].strength <= strength)
    && exists i | 0 <= i < |digests| :: digests[i].strength == strength && SubresourceIntegrity.Spells(digests[i].value, digest)
  }

  /** The bytes digested, by algorithm. */
  predicate Digests(world: World, r: Response, computed: nat -> seq<SubresourceIntegrity.Byte>) {
    forall strength: nat | strength < 3 :: world.digest(strength, r.bytes) == SubresourceIntegrity.Base64(computed(strength))
  }

  /**
   * A response is let through if and only if the caller gave no integrity, or its body can be read and the digest of
   * that, by the strongest algorithm named, is one of those written for it.
   */
  lemma IntegrityIsChecked(world: World, r: Response, integrity: string, computed: nat -> seq<SubresourceIntegrity.Byte>)
    requires Digests(world, r, computed)
    ensures Verdict(world, r, integrity).None? <==>
              integrity == "" || (r.hasBody && r.readable && exists strength: nat | strength < 3 :: SpelledStrongest(integrity, strength, computed(strength)))
  {
    hide SubresourceIntegrity.Words, SubresourceIntegrity.ReadWord, SubresourceIntegrity.Spells, SubresourceIntegrity.Base64, SubresourceIntegrity.Matches;
    var digests := SubresourceIntegrity.Understood(SubresourceIntegrity.Words(integrity));
    if digests != [] && integrity != "" {
      var s := Strongest(digests);
      StrongestIsKnown(SubresourceIntegrity.Words(integrity), s);
      var values := SubresourceIntegrity.ValuesFor(digests, s);
      SubresourceIntegrity.MatchesExactly(SubresourceIntegrity.Check(s, values), computed(s));
      ValuesAreWritten(digests, s, computed(s));
      forall strength: nat | strength < 3 && SpelledStrongest(integrity, strength, computed(strength)) ensures strength == s {
        var i :| 0 <= i < |digests| && digests[i].strength == strength;
        var j :| 0 <= j < |digests| && digests[j].strength == s;
      }
    }
  }

  lemma {:induction false} StrongestIsKnown(words: seq<string>, s: nat)
    requires SubresourceIntegrity.IsStrongest(SubresourceIntegrity.Understood(words), s)
    ensures s < 3
  {
    var digests := SubresourceIntegrity.Understood(words);
    var i :| 0 <= i < |digests| && digests[i].strength == s;
    KnownStrength(words, i);
  }

  lemma {:induction false} KnownStrength(words: seq<string>, i: nat)
    requires i < |SubresourceIntegrity.Understood(words)|
    ensures SubresourceIntegrity.Understood(words)[i].strength < 3
    decreases |words|
  {
    hide SubresourceIntegrity.ReadWord;
    if SubresourceIntegrity.ReadWord(words[0]).None? {
      KnownStrength(words[1..], i);
    } else if i > 0 {
      KnownStrength(words[1..], i - 1);
    }
  }

  lemma {:induction false} ValuesAreWritten(digests: seq<SubresourceIntegrity.Digest>, s: nat, digest: seq<SubresourceIntegrity.Byte>)
    ensures (exists i | 0 <= i < |SubresourceIntegrity.ValuesFor(digests, s)| :: SubresourceIntegrity.Spells(SubresourceIntegrity.ValuesFor(digests, s)[i], digest))
            <==> (exists i | 0 <= i < |digests| :: digests[i].strength == s && SubresourceIntegrity.Spells(digests[i].value, digest))
    decreases |digests|
  {
    hide SubresourceIntegrity.Spells;
    if digests != [] {
      ValuesAreWritten(digests[1..], s, digest);
      var values, later := SubresourceIntegrity.ValuesFor(digests, s), SubresourceIntegrity.ValuesFor(digests[1..], s);
      if i :| 0 <= i < |digests[1..]| && digests[1..][i].strength == s && SubresourceIntegrity.Spells(digests[1..][i].value, digest) {
        assert digests[i + 1] == digests[1..][i];
      }
      if i :| 0 <= i < |digests| && digests[i].strength == s && SubresourceIntegrity.Spells(digests[i].value, digest) {
        if i > 0 { assert digests[1..][i - 1] == digests[i]; } else { assert values[0] == digests[0].value; }
      }
      if i :| 0 <= i < |later| && SubresourceIntegrity.Spells(later[i], digest) {
        assert values[if digests[0].strength == s then i + 1 else i] == later[i];
      }
      if i :| 0 <= i < |values| && SubresourceIntegrity.Spells(values[i], digest) {
        if digests[0].strength == s && i > 0 { assert later[i - 1] == values[i]; }
      }
    }
  }

  /** The method is the caller's until it becomes GET, when the body and its headers go too, for good. */
  lemma {:induction false} MethodOnlyBecomesGet(world: World, call: Call, hops: seq<Hop>, j: nat)
    requires Chain(world, call, hops) && j < |hops|
    ensures (hops[j].verb == VerbOf(call) && hops[j].body == BodyOf(call))
            || (hops[j].verb == "GET" && hops[j].body.NoBody? && forall name | name in hops[j].headers :: !DescribesBody(name))
    decreases j
  {
    if j > 0 {
      assert Follows(world, hops[j - 1], hops[j]);
      MethodOnlyBecomesGet(world, call, hops, j - 1);
    }
  }

  /** The requests are exactly what the guard approved, each asked about just before it was made. */
  lemma {:induction false} ApprovedJustBefore(hops: seq<Hop>, i: nat)
    requires i < |hops|
    ensures |InTurn(hops)| == 2 * |hops|
    ensures InTurn(hops)[2 * i] == Asked(hops[i].url) && InTurn(hops)[2 * i + 1] == Sent(hops[i])
    decreases |hops|
  {
    var init := hops[..|hops| - 1];
    if |hops| == 1 {
      assert InTurn(init) == [];
    } else {
      ApprovedJustBefore(init, if i < |init| then i else 0);
    }
  }
}
