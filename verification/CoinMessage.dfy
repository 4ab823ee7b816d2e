/**
 A whole message with several links, from its text to the rewritten text: collect and
 resolve the occurrences, generate every input, render.
 */
module CoinMessage {
  import opened Prelude
  import opened Ledger
  import opened Coin
  import opened CoinMulti
  import opened CoinStore
  import opened UrlText
  import Surface = UrlRender

  /** The service's fingerprints.  Equal fingerprints are of equal inputs. */
  datatype Config = Config(fingerprint: string -> Fingerprint, tracking: Fingerprint, key: Fingerprint)

  ghost predicate Separates(c: Config) {
    forall a, b | c.fingerprint(a) == c.fingerprint(b) :: a == b
  }

  function RequestOf(c: Config, input: string): Request {
    Request(c.fingerprint(input), c.tracking, c.key)
  }

  datatype MessageError =
    | NotAccepted(rejection: Surface.Rejection)
    | OccurrencesRequired
    | ResolutionRefused
    | NotGenerated(error: MultiError)
    | ReplacementMismatch

  /** The short link behind a visible URL: the URL itself, or what its wrapper resolves to. */
  type Resolver = string -> Option<string>

  // ----------------------------------------------------------- what is promised

  /** The probe shows this link for the input. */
  ghost predicate ShowsLink(db: Db, r: Request, now: Time, link: Link) {
    var probe := Inspect(db, r, now);
    probe.Ok? && probe.value.Some? && probe.value.value.ready.Some? && probe.value.value.ready.value.link == link
  }

  /** Exactly the message's URLs are replaced, each by the stored link of its own input. */
  ghost predicate ReplacesWithOwnLinks(db: Db, c: Config, resolve: Resolver, urls: multiset<string>,
                                       m: map<string, string>, now: Time) {
    && (forall url :: url in urls <==> url in m)
    && forall url | url in m ::
         resolve(url).Some? && ShowsLink(db, RequestOf(c, resolve(url).value), now, m[url])
  }

  ghost predicate Resolvable(resolve: Resolver, urls: multiset<string>) {
    forall url | url in urls :: resolve(url).Some?
  }

  ghost predicate Probed(start: Db, c: Config, resolve: Resolver, urls: multiset<string>, now: Time)
    requires Resolvable(resolve, urls)
  {
    forall url | url in urls :: Inspect(start, RequestOf(c, resolve(url).value), now).Ok?
  }

  /** The inputs of the message that nothing is stored for. */
  ghost function Missed(start: Db, c: Config, resolve: Resolver, urls: multiset<string>, now: Time): set<string>
    requires Resolvable(resolve, urls)
  {
    set url | url in urls && Inspect(start, RequestOf(c, resolve(url).value), now) == Ok(None) :: resolve(url).value
  }

  /** The link of a URL is what was answered for its input, if nothing was stored for it, and
      otherwise what was stored. */
  ghost predicate LinksAnswered(start: Db, c: Config, resolve: Resolver, respond: string -> Response,
                                m: map<string, string>, now: Time) {
    forall url | url in m ::
      resolve(url).Some?
      && LinkAnswered(start, RequestOf(c, resolve(url).value), respond(resolve(url).value), m[url], now)
  }

  ghost predicate LinkAnswered(start: Db, r: Request, response: Response, link: Link, now: Time) {
    if Inspect(start, r, now) == Ok(None) then response.Answer? && link == response.link else ShowsLink(start, r, now, link)
  }

  // ------------------------------------------------------------------- inputs

  ghost predicate AllDistinct(s: seq<string>) {
    forall i, j | 0 <= i < j < |s| :: s[i] != s[j]
  }

  function Requests(c: Config, inputs: seq<string>): seq<Request> {
    seq(|inputs|, i requires 0 <= i < |inputs| => RequestOf(c, inputs[i]))
  }

  function Responses(respond: string -> Response, inputs: seq<string>): seq<Response> {
    seq(|inputs|, i requires 0 <= i < |inputs| => respond(inputs[i]))
  }

  lemma InputsAreOneMessage(c: Config, inputs: seq<string>)
    requires Separates(c) && AllDistinct(inputs)
    ensures OneMessage(Requests(c, inputs))
  {
    forall i, j | 0 <= i < j < |inputs| ensures Requests(c, inputs)[i].input != Requests(c, inputs)[j].input {
      assert inputs[i] != inputs[j];
    }
  }

  ghost predicate Resolves(resolve: Resolver, resolved: map<string, string>) {
    forall url | url in resolved :: resolve(url) == Some(resolved[url])
  }

  /** resolved: every visible URL once; None when a wrapper is refused. */
  method ResolveAll(occurrences: seq<Surface.Occurrence>, resolve: Resolver) returns (r: Option<map<string, string>>)
    ensures r.Some? ==> Resolves(resolve, r.value) && forall url :: url in r.value <==> exists o | o in occurrences :: o.value == url
    ensures r.None? ==> exists o | o in occurrences :: resolve(o.value).None?
  {
    var resolved: map<string, string> := map[];
    for i := 0 to |occurrences|
      invariant Resolves(resolve, resolved)
      invariant forall url :: url in resolved <==> exists j | 0 <= j < i :: occurrences[j].value == url
    {
      var url := occurrences[i].value;
      if url !in resolved {
        var input := resolve(url);
        if input.None? {
          assert occurrences[i] in occurrences;
          return None;
        }
        resolved := resolved[url := input.value];
      }
    }
    forall url ensures url in resolved <==> exists o | o in occurrences :: o.value == url {
      if url in resolved {
        var j :| 0 <= j < |occurrences| && occurrences[j].value == url;
        assert occurrences[j] in occurrences;
      }
    }
    r := Some(resolved);
  }

  /** dict.fromkeys over the resolved values, in the order of the occurrences. */
  method InputsOf(occurrences: seq<Surface.Occurrence>, resolved: map<string, string>) returns (inputs: seq<string>)
    requires forall o | o in occurrences :: o.value in resolved
    ensures AllDistinct(inputs)
    ensures forall o | o in occurrences :: resolved[o.value] in inputs
    ensures forall input | input in inputs :: input in resolved.Values
  {
    inputs := [];
    for i := 0 to |occurrences|
      invariant AllDistinct(inputs)
      invariant forall j | 0 <= j < i :: resolved[occurrences[j].value] in inputs
      invariant forall input | input in inputs :: input in resolved.Values
    {
      assert occurrences[i] in occurrences;
      if resolved[occurrences[i].value] !in inputs {
        inputs := inputs + [resolved[occurrences[i].value]];
      }
    }
  }

  /** The stored link of every input. */
  method LinksOf(inputs: seq<string>, generated: seq<Generated>) returns (links: map<string, string>)
    requires |generated| == |inputs| && AllDistinct(inputs)
    ensures forall i | 0 <= i < |inputs| :: inputs[i] in links && links[inputs[i]] == generated[i].ready.link
  {
    links := map[];
    for i := 0 to |inputs|
      invariant forall j | 0 <= j < i :: inputs[j] in links && links[inputs[j]] == generated[j].ready.link
    {
      links := links[inputs[i] := generated[i].ready.link];
    }
  }

  /** replacements: the link of what each URL resolves to. */
  function Composed(resolved: map<string, string>, links: map<string, string>): map<string, string> {
    map url | url in resolved && resolved[url] in links :: links[resolved[url]]
  }

  ghost predicate AllLinked(after: Db, c: Config, inputs: seq<string>, now: Time, links: map<string, string>,
                            generated: seq<Generated>) {
    && |generated| == |inputs|
    && (forall i | 0 <= i < |inputs| :: Inspect(after, RequestOf(c, inputs[i]), now) == Ok(Some(ShownClaim(generated[i]))))
    && (forall i | 0 <= i < |inputs| :: inputs[i] in links && links[inputs[i]] == generated[i].ready.link)
  }

  lemma LinksAreOwn(db: Db, c: Config, resolve: Resolver, urls: multiset<string>, resolved: map<string, string>,
                    inputs: seq<string>, generated: seq<Generated>, links: map<string, string>, now: Time)
    requires Resolves(resolve, resolved) && (forall url :: url in urls <==> url in resolved)
    requires forall url | url in resolved :: resolved[url] in inputs
    requires AllLinked(db, c, inputs, now, links, generated)
    ensures ReplacesWithOwnLinks(db, c, resolve, urls, Composed(resolved, links), now)
  {
    forall url | url in resolved
      ensures url in Composed(resolved, links)
      ensures ShowsLink(db, RequestOf(c, resolve(url).value), now, Composed(resolved, links)[url])
    {
      var i :| 0 <= i < |inputs| && inputs[i] == resolved[url];
    }
  }

  lemma LinksAreAnswers(start: Db, c: Config, resolve: Resolver, respond: string -> Response, resolved: map<string, string>,
                        inputs: seq<string>, generated: seq<Generated>, links: map<string, string>, now: Time)
    requires Resolves(resolve, resolved) && (forall url | url in resolved :: resolved[url] in inputs)
    requires AllFromAnswers(start, Requests(c, inputs), Responses(respond, inputs), generated, now) && |generated| == |inputs|
    requires forall i | 0 <= i < |inputs| :: inputs[i] in links && links[inputs[i]] == generated[i].ready.link
    ensures LinksAnswered(start, c, resolve, respond, Composed(resolved, links), now)
  {
    forall url | url in resolved ensures url in Composed(resolved, links)
      ensures LinkAnswered(start, RequestOf(c, resolved[url]), respond(resolved[url]), Composed(resolved, links)[url], now)
    {
      var i :| 0 <= i < |inputs| && inputs[i] == resolved[url];
      AnswersLink(start, Requests(c, inputs)[i], Responses(respond, inputs)[i], generated[i], now);
    }
  }

  lemma AnswersLink(start: Db, r: Request, response: Response, g: Generated, now: Time)
    requires FromAnswer(start, r, response, g, now)
    ensures LinkAnswered(start, r, response, g.ready.link, now)
  {
  }

  // ------------------------------------------------------------------- counting

  ghost predicate IsMiss(start: Db, c: Config, input: string, now: Time) {
    Inspect(start, RequestOf(c, input), now) == Ok(None)
  }

  ghost function MissedAmong(start: Db, c: Config, inputs: seq<string>, now: Time): set<string> {
    set input | input in inputs && IsMiss(start, c, input, now)
  }

  lemma {:induction false} MissesAreMissed(start: Db, c: Config, inputs: seq<string>, now: Time)
    requires AllDistinct(inputs)
    ensures Misses(start, Requests(c, inputs), now) == |MissedAmong(start, c, inputs, now)|
  {
    if inputs != [] {
      var n := |inputs| - 1;
      var init, last := inputs[..n], inputs[n];
      assert inputs == init + [last] && last !in init;
      MissesAreMissed(start, c, init, now);
      MissesSnoc(start, c, inputs, now);
      MissedSnoc(start, c, inputs, now);
    } else {
      assert Requests(c, inputs) == [] && MissedAmong(start, c, inputs, now) == {};
    }
  }

  lemma MissesSnoc(start: Db, c: Config, inputs: seq<string>, now: Time)
    requires inputs != []
    ensures var n := |inputs| - 1;
      Misses(start, Requests(c, inputs), now)
        == Misses(start, Requests(c, inputs[..n]), now) + if IsMiss(start, c, inputs[n], now) then 1 else 0
  {
    var n := |inputs| - 1;
    assert Requests(c, inputs)[..n] == Requests(c, inputs[..n]) && Requests(c, inputs)[n] == RequestOf(c, inputs[n]);
  }

  lemma MissedSnoc(start: Db, c: Config, inputs: seq<string>, now: Time)
    requires inputs != [] && inputs[|inputs| - 1] !in inputs[..|inputs| - 1]
    ensures var n := |inputs| - 1;
      |MissedAmong(start, c, inputs, now)|
        == |MissedAmong(start, c, inputs[..n], now)| + if IsMiss(start, c, inputs[n], now) then 1 else 0
  {
    var n := |inputs| - 1;
    assert inputs == inputs[..n] + [inputs[n]];
    assert MissedAmong(start, c, inputs, now)
        == MissedAmong(start, c, inputs[..n], now) + if IsMiss(start, c, inputs[n], now) then {inputs[n]} else {};
  }

  /** What holds of the inputs, said of the message's URLs. */
  lemma InputsAreResolved(start: Db, c: Config, resolve: Resolver, urls: multiset<string>, resolved: map<string, string>,
                          inputs: seq<string>, now: Time)
    requires Resolves(resolve, resolved) && (forall url :: url in urls <==> url in resolved)
    requires (forall url | url in resolved :: resolved[url] in inputs)
    requires forall input | input in inputs :: input in resolved.Values
    ensures Resolvable(resolve, urls)
    ensures Missed(start, c, resolve, urls, now) == MissedAmong(start, c, inputs, now)
    ensures Probed(start, c, resolve, urls, now)
       <==> AllProbe(start, c, inputs, now)
  {
    var missed := Missed(start, c, resolve, urls, now);
    forall input ensures input in missed <==> input in MissedAmong(start, c, inputs, now) {
      if input in MissedAmong(start, c, inputs, now) {
        var url :| url in resolved && resolved[url] == input;
        assert resolve(url).value == input && url in urls;
      }
    }
    if Probed(start, c, resolve, urls, now) {
      forall j | 0 <= j < |inputs| ensures Inspect(start, Requests(c, inputs)[j], now).Ok? {
        assert inputs[j] in inputs;
        var url :| url in resolved && resolved[url] == inputs[j];
        assert url in urls;
      }
    }
    if forall j | 0 <= j < |inputs| :: Inspect(start, Requests(c, inputs)[j], now).Ok? {
      forall url | url in urls ensures Inspect(start, RequestOf(c, resolve(url).value), now).Ok? {
        var j :| 0 <= j < |inputs| && inputs[j] == resolved[url];
        assert Requests(c, inputs)[j] == RequestOf(c, resolve(url).value);
      }
    }
  }

  lemma AnswersAreResolved(start: Db, c: Config, inputs: seq<string>, respond: string -> Response, responses: seq<Response>,
                           now: Time)
    requires |responses| == |inputs| && forall i | 0 <= i < |inputs| :: responses[i] == respond(inputs[i])
    ensures AllMissesAnswered(start, Requests(c, inputs), responses, now)
       <==> forall input | input in MissedAmong(start, c, inputs, now) :: respond(input).Answer?
  {
    if forall input | input in MissedAmong(start, c, inputs, now) :: respond(input).Answer? {
      forall j | 0 <= j < |inputs| && Inspect(start, Requests(c, inputs)[j], now) == Ok(None) ensures responses[j].Answer? {
        assert inputs[j] in MissedAmong(start, c, inputs, now);
      }
    }
    if AllMissesAnswered(start, Requests(c, inputs), responses, now) {
      forall input | input in MissedAmong(start, c, inputs, now) ensures respond(input).Answer? {
        var j :| 0 <= j < |inputs| && inputs[j] == input;
        assert Requests(c, inputs)[j] == RequestOf(c, input);
      }
    }
  }

  // ---------------------------------------------------------------- the message

  ghost predicate InputsEnd(start: Db, after: Db, calls: nat, remaining: nat, calls': nat, c: Config,
                            respond: string -> Response, inputs: seq<string>, now: Time,
                            r: Result<map<string, string>, MultiError>, generated: seq<Generated>) {
    var missed := MissedAmong(start, c, inputs, now);
    if !AllProbe(start, c, inputs, now) then r.Err? && r.error != BudgetInsufficient && after == start && calls' == calls
    else if |missed| > remaining then r == Err(BudgetInsufficient) && after == start && calls' == calls
    else if exists input | input in missed :: !respond(input).Answer? then r.Err? && r.error != BudgetInsufficient
    else
      && r.Ok? && calls' == calls + |missed| && AllLinked(after, c, inputs, now, r.value, generated)
      && AllFromAnswers(start, Requests(c, inputs), Responses(respond, inputs), generated, now)
  }

  ghost predicate AllProbe(start: Db, c: Config, inputs: seq<string>, now: Time) {
    forall j | 0 <= j < |inputs| :: Inspect(start, Requests(c, inputs)[j], now).Ok?
  }

  /** The inputs in order, probed and generated. */
  method GenerateInputs(store: ShadowStore, controller: RunController, c: Config, inputs: seq<string>, now: Time,
                        respond: string -> Response) returns (r: Result<map<string, string>, MultiError>, ghost generated: seq<Generated>)
    requires store.Valid() && controller.Valid() && Separates(c) && AllDistinct(inputs)
    modifies store, controller
    ensures store.Valid() && controller.Valid()
    ensures InputsEnd(Recover(old(store.View()), now), store.View(), old(controller.apiCalls),
                      old(controller.RemainingApiCalls()), controller.apiCalls, c, respond, inputs, now, r, generated)
  {
    ghost var start := Recover(store.View(), now);
    var rs := Requests(c, inputs);
    var responses := Responses(respond, inputs);
    InputsAreOneMessage(c, inputs);
    MissesAreMissed(start, c, inputs, now);
    AnswersAreResolved(start, c, inputs, respond, responses, now);
    var out := PrepareMessage(store, controller, rs, now, responses);
    generated := [];
    if out.Err? {
      return Err(out.error), [];
    }
    generated := out.value;
    assert forall i | 0 <= i < |inputs| :: rs[i] == RequestOf(c, inputs[i]);
    var links := LinksOf(inputs, out.value);
    r := Ok(links);
  }

  /** How the generation of a message's links ends: refused by a resolver, by a probe, or for
      the budget, before anything is generated; or stopped by an answer that is no link; or
      with a link for every URL. */
  ghost predicate LinksEnd(before: Db, after: Db, calls: nat, remaining: nat, calls': nat, c: Config, resolve: Resolver,
                           respond: string -> Response, urls: multiset<string>, now: Time,
                           r: Result<map<string, string>, MessageError>) {
    if !Resolvable(resolve, urls) then r == Err(ResolutionRefused) && after == before && calls' == calls
    else
      var start := Recover(before, now);
      var missed := Missed(start, c, resolve, urls, now);
      if !Probed(start, c, resolve, urls, now) then
        r.Err? && r.error.NotGenerated? && r.error.error != BudgetInsufficient && after == start && calls' == calls
      else if |missed| > remaining then
        r == Err(NotGenerated(BudgetInsufficient)) && after == start && calls' == calls
      else if exists input | input in missed :: !respond(input).Answer? then
        r.Err? && r.error.NotGenerated? && r.error.error != BudgetInsufficient
      else
        && r.Ok? && calls' == calls + |missed|
        && ReplacesWithOwnLinks(after, c, resolve, urls, r.value, now)
        && LinksAnswered(start, c, resolve, respond, r.value, now)
  }

  /** Every input generated, and every URL of the message mapped to its link. */
  method GenerateLinks(store: ShadowStore, controller: RunController, c: Config, resolve: Resolver,
                       occurrences: seq<Surface.Occurrence>, now: Time, respond: string -> Response)
    returns (r: Result<map<string, string>, MessageError>)
    requires store.Valid() && controller.Valid() && Separates(c)
    modifies store, controller
    ensures store.Valid() && controller.Valid()
    ensures LinksEnd(old(store.View()), store.View(), old(controller.apiCalls), old(controller.RemainingApiCalls()),
                     controller.apiCalls, c, resolve, respond, Surface.Values(occurrences), now, r)
  {
    ghost var before, start := store.View(), Recover(store.View(), now);
    ghost var calls, remaining, urls := controller.apiCalls, controller.RemainingApiCalls(), Surface.Values(occurrences);
    var resolved := ResolveAll(occurrences, resolve);
    if resolved.None? {
      NotResolvable(occurrences, resolve);
      return Err(ResolutionRefused);
    }
    var inputs := InputsOf(occurrences, resolved.value);
    ValuesAreVisible(occurrences, resolved.value);
    var links, generated := GenerateInputs(store, controller, c, inputs, now, respond);
    LinksEndOf(before, start, store.View(), calls, remaining, controller.apiCalls, c, resolve, respond, urls,
               resolved.value, inputs, now, links, generated);
    if links.Err? {
      return Err(NotGenerated(links.error));
    }
    r := Ok(Composed(resolved.value, links.value));
  }

  lemma LinksEndOf(before: Db, start: Db, after: Db, calls: nat, remaining: nat, calls': nat, c: Config, resolve: Resolver,
                   respond: string -> Response, urls: multiset<string>, resolved: map<string, string>, inputs: seq<string>,
                   now: Time, links: Result<map<string, string>, MultiError>, generated: seq<Generated>)
    requires start == Recover(before, now)
    requires Resolves(resolve, resolved) && (forall url :: url in urls <==> url in resolved)
    requires (forall url | url in resolved :: resolved[url] in inputs)
    requires forall input | input in inputs :: input in resolved.Values
    requires InputsEnd(start, after, calls, remaining, calls', c, respond, inputs, now, links, generated)
    ensures LinksEnd(before, after, calls, remaining, calls', c, resolve, respond, urls, now,
                     if links.Ok? then Ok(Composed(resolved, links.value)) else Err(NotGenerated(links.error)))
  {
    InputsAreResolved(start, c, resolve, urls, resolved, inputs, now);
    if links.Ok? {
      ComposedLinks(start, after, c, resolve, respond, urls, resolved, inputs, now, links.value, generated);
    }
  }

  lemma ComposedLinks(start: Db, after: Db, c: Config, resolve: Resolver, respond: string -> Response,
                      urls: multiset<string>, resolved: map<string, string>, inputs: seq<string>, now: Time,
                      links: map<string, string>, generated: seq<Generated>)
    requires Resolves(resolve, resolved) && (forall url :: url in urls <==> url in resolved)
    requires (forall url | url in resolved :: resolved[url] in inputs)
    requires AllLinked(after, c, inputs, now, links, generated)
    requires AllFromAnswers(start, Requests(c, inputs), Responses(respond, inputs), generated, now)
    ensures ReplacesWithOwnLinks(after, c, resolve, urls, Composed(resolved, links), now)
    ensures LinksAnswered(start, c, resolve, respond, Composed(resolved, links), now)
  {
    LinksAreOwn(after, c, resolve, urls, resolved, inputs, generated, links, now);
    LinksAreAnswers(start, c, resolve, respond, resolved, inputs, generated, links, now);
  }

  lemma NotResolvable(occurrences: seq<Surface.Occurrence>, resolve: Resolver)
    requires exists o | o in occurrences :: resolve(o.value).None?
    ensures !Resolvable(resolve, Surface.Values(occurrences))
  {
    var o :| o in occurrences && resolve(o.value).None?;
    Surface.ValuesOf(occurrences);
    var i :| 0 <= i < |occurrences| && occurrences[i] == o;
  }

  lemma ValuesAreVisible(occurrences: seq<Surface.Occurrence>, resolved: map<string, string>)
    requires forall url :: url in resolved <==> exists o | o in occurrences :: o.value == url
    ensures forall url :: url in Surface.Values(occurrences) <==> url in resolved
  {
    Surface.ValuesOf(occurrences);
    forall url | url in Surface.Values(occurrences) ensures url in resolved {
      Surface.ValueIsOccurrence(occurrences, url);
    }
  }

  /** prepare, up to the preview it saves: the surface is checked before anything else, then
      the number of links, then everything is resolved, probed, budgeted and generated, and
      every URL is replaced by its link.  The mismatch of the two counts never happens. */
  method PrepareText(store: ShadowStore, controller: RunController, c: Config, message: Surface.Message, limit: int,
                     policy: Surface.Policy, resolve: Resolver, now: Time, respond: string -> Response)
    returns (r: Result<(string, map<string, string>), MessageError>)
    requires store.Valid() && controller.Valid() && Separates(c)
    modifies store, controller
    ensures store.Valid() && controller.Valid()
    ensures var urls := Urls(Parse(message.text));
      if !Surface.Admissible(message, limit, policy) then
        && r == Err(NotAccepted(Surface.Refusal(message, limit, policy)))
        && store.View() == old(store.View()) && controller.apiCalls == old(controller.apiCalls)
      else if |urls| < 2 && !policy.wrappers then
        && r == Err(OccurrencesRequired)
        && store.View() == old(store.View()) && controller.apiCalls == old(controller.apiCalls)
      else
        && (r.Ok? ==> r.value.0 == Render(message.text, r.value.1))
        && LinksEnd(old(store.View()), store.View(), old(controller.apiCalls), old(controller.RemainingApiCalls()),
                    controller.apiCalls, c, resolve, respond, urls, now, if r.Ok? then Ok(r.value.1) else Err(r.error))
  {
    var collected := Surface.CollectOccurrences(message, limit, policy);
    if collected.Err? {
      return Err(NotAccepted(collected.error));
    }
    var occurrences := collected.value;
    Surface.ValuesOf(occurrences);
    if |occurrences| < 2 && !policy.wrappers {
      return Err(OccurrencesRequired);
    }
    var replacements := GenerateLinks(store, controller, c, resolve, occurrences, now, respond);
    if replacements.Err? {
      return Err(replacements.error);
    }
    var m := replacements.value;
    var rendered, count, counts := Surface.RenderReplacements(message.text, m);
    AllMapped(message.text, occurrences, m);
    if count != |occurrences| || counts != Surface.Values(occurrences) {
      assert false;  // the mismatch never happens
    }
    r := Ok((rendered, m));
  }

  lemma AllMapped(text: string, occurrences: seq<Surface.Occurrence>, m: map<string, string>)
    requires Surface.Values(occurrences) == Urls(Parse(text))
    requires forall url :: url in Surface.Values(occurrences) <==> url in m
    ensures Replaced(Parse(text), m) == Surface.Values(occurrences) && |Replaced(Parse(text), m)| == |occurrences|
  {
    Surface.ValuesOf(occurrences);
    forall o | o in occurrences ensures o.value in m {
      var i :| 0 <= i < |occurrences| && occurrences[i] == o;
    }
    Surface.OccurrencesAreAllReplaced(text, occurrences, m);
  }
}
