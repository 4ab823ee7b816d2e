/**
 The scanning loops over message text: trimming, rewriting with its counters, and the
 collection of the occurrences that a multi-link message is checked for.
 */
module UrlRender {
  import opened Prelude
  import opened UrlText

  /** _trim_url. */
  method TrimUrl(url: string) returns (trimmed: string)
    ensures trimmed == url[..TrimLength(url)]
  {
    trimmed := url;
    while trimmed != [] && trimmed[|trimmed| - 1] in TRAILING
      invariant |trimmed| <= |url| && trimmed == url[..|trimmed|] && TrimLength(trimmed) == TrimLength(url)
      decreases |trimmed|
    {
      trimmed := trimmed[..|trimmed| - 1];
    }
  }

  /** The pattern's match at a position: its end, or the position itself. */
  method MatchAt(text: string, start: nat) returns (end: nat)
    requires start < |text|
    ensures end == start + TokenLength(text[start..])
  {
    var scheme := SchemeLength(text[start..]);
    if scheme == 0 {
      return start;
    }
    end := start + scheme;
    while end < |text| && !IsStop(text[end])
      invariant start + scheme <= end <= |text|
      invariant BodyLength(text[start + scheme..]) == end - start - scheme + BodyLength(text[end..])
    {
      assert text[end..][1..] == text[end + 1..];
      end := end + 1;
    }
    assert text[start..][scheme..] == text[start + scheme..];
    if end == start + scheme {
      end := start;
    }
  }

  function PieceAt(text: string): Piece
    requires text != []
  {
    if TokenLength(text) == 0 then Gap(text[0]) else Split(text[..TokenLength(text)])
  }

  lemma ParseStep(text: string)
    requires text != []
    ensures var n := if TokenLength(text) == 0 then 1 else TokenLength(text);
      Parse(text) == [PieceAt(text)] + Parse(text[n..]) && Shown(PieceAt(text)) == text[..n]
  {
    var token := text[..TokenLength(text)];
    assert token[..TrimLength(token)] + token[TrimLength(token)..] == token;
  }

  lemma ParseFrom(text: string, start: nat, end: nat)
    requires start < |text|
    requires end == start + if TokenLength(text[start..]) == 0 then 1 else TokenLength(text[start..])
    ensures start < end <= |text|
    ensures Parse(text[start..]) == [PieceAt(text[start..])] + Parse(text[end..])
    ensures Shown(PieceAt(text[start..])) == text[start..end]
  {
    ParseStep(text[start..]);
    assert text[start..][end - start..] == text[end..] && text[start..][..end - start] == text[start..end];
  }

  /** One step of a scan: the piece at a position, and where the next one starts. */
  method NextPiece(text: string, start: nat) returns (piece: Piece, end: nat)
    requires start < |text|
    ensures start < end <= |text|
    ensures Parse(text[start..]) == [piece] + Parse(text[end..])
    ensures Shown(piece) == text[start..end]
  {
    end := MatchAt(text, start);
    if end == start {
      end := start + 1;
      piece := Gap(text[start]);
    } else {
      assert text[start..][..end - start] == text[start..end];
      var url := TrimUrl(text[start..end]);
      piece := Token(url, text[start..end][|url|..]);
    }
    ParseFrom(text, start, end);
  }

  /** render_affiliate_link_replacements: the substitution with its counter, then a second
      scan that counts every URL; both count the same replacements. */
  method RenderReplacements(text: string, replacements: map<string, string>)
    returns (converted: string, count: nat, counts: multiset<string>)
    ensures converted == Render(text, replacements)
    ensures counts == Replaced(Parse(text), replacements)
    ensures count == |counts|
    ensures forall url :: counts[url] == if url in replacements then Urls(Parse(text))[url] else 0
  {
    converted, count := Substitute(text, replacements);
    counts := CountUrls(text, replacements);
    forall url ensures counts[url] == if url in replacements then Urls(Parse(text))[url] else 0 {
      ReplacedCounts(Parse(text), replacements, url);
    }
  }

  /** The text substituted up to a position, and what is left of it. */
  ghost predicate Substituted(text: string, m: map<string, string>, i: nat, converted: string, count: nat) {
    && i <= |text|
    && Render(text, m) == converted + Render(text[i..], m)
    && |Replaced(Parse(text), m)| == count + |Replaced(Parse(text[i..]), m)|
  }

  lemma SubstitutePiece(text: string, m: map<string, string>, i: nat, end: nat, piece: Piece, converted: string, count: nat)
    requires Substituted(text, m, i, converted, count) && end <= |text|
    requires Parse(text[i..]) == [piece] + Parse(text[end..])
    ensures Substituted(text, m, end, converted + Shown(Replace(piece, m)),
                        count + if piece.Token? && piece.url in m then 1 else 0)
  {
    ReplacePiece(piece, Parse(text[end..]), m, Render(text, m), |Replaced(Parse(text), m)|, converted, count);
  }

  lemma ReplacePiece(piece: Piece, rest: seq<Piece>, m: map<string, string>,
                     whole: string, total: nat, converted: string, count: nat)
    requires whole == converted + Unparse(ReplaceAll([piece] + rest, m))
    requires total == count + |Replaced([piece] + rest, m)|
    ensures whole == converted + Shown(Replace(piece, m)) + Unparse(ReplaceAll(rest, m))
    ensures total == count + (if piece.Token? && piece.url in m then 1 else 0) + |Replaced(rest, m)|
  {
    RenderStep(piece, rest, m);
    assert converted + (Shown(Replace(piece, m)) + Unparse(ReplaceAll(rest, m)))
        == converted + Shown(Replace(piece, m)) + Unparse(ReplaceAll(rest, m));
  }

  /** URL_PATTERN.sub with the counting callback. */
  method Substitute(text: string, replacements: map<string, string>) returns (converted: string, count: nat)
    ensures converted == Render(text, replacements)
    ensures count == |Replaced(Parse(text), replacements)|
  {
    converted, count := [], 0;
    var i := 0;
    assert text[0..] == text;
    while i < |text|
      invariant Substituted(text, replacements, i, converted, count)
      decreases |text| - i
    {
      var piece, end := NextPiece(text, i);
      SubstitutePiece(text, replacements, i, end, piece, converted, count);
      if piece.Token? && piece.url in replacements {
        converted := converted + (replacements[piece.url] + piece.trailing);
        count := count + 1;
      } else {
        converted := converted + text[i..end];
      }
      i := end;
    }
    assert text[i..] == [];
  }

  /** The Counter over URL_PATTERN.finditer. */
  method CountUrls(text: string, replacements: map<string, string>) returns (counts: multiset<string>)
    ensures counts == Replaced(Parse(text), replacements)
  {
    counts := multiset{};
    var i := 0;
    assert text[0..] == text;
    while i < |text|
      invariant i <= |text|
      invariant Replaced(Parse(text), replacements) == counts + Replaced(Parse(text[i..]), replacements)
      decreases |text| - i
    {
      var piece, end := NextPiece(text, i);
      RenderStep(piece, Parse(text[end..]), replacements);
      if piece.Token? && piece.url in replacements {
        counts := counts + multiset{piece.url};
      }
      i := end;
    }
    assert text[i..] == [];
  }

  lemma RenderStep(piece: Piece, rest: seq<Piece>, m: map<string, string>)
    ensures Unparse(ReplaceAll([piece] + rest, m)) == Shown(Replace(piece, m)) + Unparse(ReplaceAll(rest, m))
    ensures Replaced([piece] + rest, m)
         == (if piece.Token? && piece.url in m then multiset{piece.url} else multiset{}) + Replaced(rest, m)
    ensures Urls([piece] + rest) == (if piece.Token? then multiset{piece.url} else multiset{}) + Urls(rest)
  {
    var ps := [piece] + rest;
    assert ps[1..] == rest;
    ReplaceCons(ps, m);
    var qs := ReplaceAll(ps, m);
    assert qs == [Replace(piece, m)] + ReplaceAll(rest, m);
  }

  // ------------------------------------------------------------- occurrences

  datatype Occurrence = Occurrence(start: nat, end: nat, value: string)

  datatype Rejection =
    LimitInvalid | PlatformInvalid | SurfaceUnsafe | UrlCountInvalid | ShortInvalid | SurfaceMismatch

  datatype LinkSource = Text | EntityUrl | EntityTextUrl | Button

  datatype Link = Link(url: string, source: LinkSource)

  /** `plain` is is_safe_plain_text of the message's surface. */
  datatype Message = Message(platform: string, plain: bool, text: string, links: set<Link>)

  /** Which literal URLs pass: validate_coin_short and validate_seuhardware_short, the second
      only where wrappers are allowed. */
  datatype Policy = Policy(direct: string -> bool, wrapper: string -> bool, wrappers: bool)

  /** The verdict on one match: trimming punctuation must not turn an empty query into a
      valid wrapper. */
  predicate Accepts(policy: Policy, literal: string, raw: string) {
    policy.direct(literal) || (policy.wrappers && '?' !in raw && policy.wrapper(literal))
  }

  /** Every URL of the text passes. */
  ghost predicate AllAccepted(policy: Policy, ps: seq<Piece>) {
    forall i | 0 <= i < |ps| && ps[i].Token? :: Accepts(policy, ps[i].url, Shown(ps[i]))
  }

  /** Without wrappers, and wherever a match has a query, every accepted URL passes the direct
      check; and a URL that passes it, or a wrapper that is allowed, is accepted. */
  lemma AcceptanceAnswers(policy: Policy, ps: seq<Piece>)
    ensures AllAccepted(policy, ps) <==> forall i | 0 <= i < |ps| && ps[i].Token? ::
      policy.direct(ps[i].url) || (policy.wrappers && policy.wrapper(ps[i].url) && forall c | c in Shown(ps[i]) :: c != '?')
  {
    forall i | 0 <= i < |ps| && ps[i].Token?
      ensures Accepts(policy, ps[i].url, Shown(ps[i]))
         <==> policy.direct(ps[i].url) || (policy.wrappers && policy.wrapper(ps[i].url) && forall c | c in Shown(ps[i]) :: c != '?')
    {
    }
  }

  lemma AcceptedCons(policy: Policy, piece: Piece, rest: seq<Piece>)
    ensures AllAccepted(policy, [piece] + rest)
       <==> (piece.Token? ==> Accepts(policy, piece.url, Shown(piece))) && AllAccepted(policy, rest)
  {
    var ps := [piece] + rest;
    if AllAccepted(policy, ps) {
      forall i | 0 <= i < |rest| && rest[i].Token? ensures Accepts(policy, rest[i].url, Shown(rest[i])) {
        assert ps[i + 1] == rest[i];
      }
      assert ps[0] == piece;
    }
  }

  /** The message's links are visible ones, and name exactly the URLs of its text. */
  ghost predicate SurfaceMatches(links: set<Link>, urls: multiset<string>) {
    && (forall link | link in links :: link.source == Text || link.source == EntityUrl)
    && forall url :: url in urls <==> exists link :: link in links && link.url == url
  }

  /** The occurrences are the URLs of the text, in order, each at its own place. */
  ghost predicate Located(text: string, occurrences: seq<Occurrence>) {
    && (forall i | 0 <= i < |occurrences| ::
          occurrences[i].start <= occurrences[i].end <= |text|
          && text[occurrences[i].start..occurrences[i].end] == occurrences[i].value)
    && (forall i, j | 0 <= i < j < |occurrences| :: occurrences[i].end <= occurrences[j].start)
  }

  function Values(occurrences: seq<Occurrence>): multiset<string> {
    if occurrences == [] then multiset{}
    else Values(occurrences[..|occurrences| - 1]) + multiset{occurrences[|occurrences| - 1].value}
  }

  lemma ValuesSnoc(occurrences: seq<Occurrence>, o: Occurrence)
    ensures Values(occurrences + [o]) == Values(occurrences) + multiset{o.value}
  {
    assert (occurrences + [o])[..|occurrences|] == occurrences;
  }

  lemma {:induction false} ValuesOf(occurrences: seq<Occurrence>)
    ensures |Values(occurrences)| == |occurrences|
    ensures forall i | 0 <= i < |occurrences| :: occurrences[i].value in Values(occurrences)
  {
    if occurrences != [] {
      ValuesOf(occurrences[..|occurrences| - 1]);
    }
  }

  ghost predicate Before(occurrences: seq<Occurrence>, i: nat) {
    forall j | 0 <= j < |occurrences| :: occurrences[j].end <= i
  }

  lemma LocatedSnoc(text: string, occurrences: seq<Occurrence>, o: Occurrence, end: nat)
    requires Located(text, occurrences) && Before(occurrences, o.start)
    requires o.start <= o.end <= |text| && o.end <= end && text[o.start..o.end] == o.value
    ensures Located(text, occurrences + [o]) && Before(occurrences + [o], end)
  {
  }

  lemma LocateOne(text: string, i: nat, end: nat, piece: Piece)
    requires i <= end <= |text| && piece.Token? && Shown(piece) == text[i..end]
    ensures i + |piece.url| <= end && text[i..i + |piece.url|] == piece.url
  {
    assert |text[i..end]| == |piece.url| + |piece.trailing|;
    assert text[i..i + |piece.url|] == text[i..end][..|piece.url|];
  }

  /** The occurrences up to a position, and what is left of the text. */
  ghost predicate Scanned(text: string, occurrences: seq<Occurrence>, i: nat) {
    && i <= |text| && Located(text, occurrences) && Before(occurrences, i)
    && Urls(Parse(text)) == Values(occurrences) + Urls(Parse(text[i..]))
  }

  lemma ScannedGap(text: string, occurrences: seq<Occurrence>, i: nat, piece: Piece, end: nat)
    requires Scanned(text, occurrences, i) && i <= end <= |text| && piece.Gap?
    requires Parse(text[i..]) == [piece] + Parse(text[end..])
    ensures Scanned(text, occurrences, end)
  {
    RenderStep(piece, Parse(text[end..]), map[]);
  }

  lemma ScannedToken(text: string, occurrences: seq<Occurrence>, i: nat, piece: Piece, end: nat)
    requires Scanned(text, occurrences, i) && i <= end <= |text| && piece.Token?
    requires Parse(text[i..]) == [piece] + Parse(text[end..]) && Shown(piece) == text[i..end]
    ensures Scanned(text, occurrences + [Occurrence(i, i + |piece.url|, piece.url)], end)
  {
    var o := Occurrence(i, i + |piece.url|, piece.url);
    LocateOne(text, i, end, piece);
    LocatedSnoc(text, occurrences, o, end);
    CountedToken(text, occurrences, o, piece, i, end);
  }

  lemma CountedToken(text: string, occurrences: seq<Occurrence>, o: Occurrence, piece: Piece, i: nat, end: nat)
    requires i <= end <= |text| && piece.Token? && o.value == piece.url
    requires Parse(text[i..]) == [piece] + Parse(text[end..])
    requires Urls(Parse(text)) == Values(occurrences) + Urls(Parse(text[i..]))
    ensures Urls(Parse(text)) == Values(occurrences + [o]) + Urls(Parse(text[end..]))
  {
    RenderStep(piece, Parse(text[end..]), map[]);
    ValuesSnoc(occurrences, o);
  }

  /** The matches of the pattern, and whether any of them is not accepted. */
  method Locate(text: string, policy: Policy) returns (occurrences: seq<Occurrence>, invalid: bool)
    ensures Located(text, occurrences) && Values(occurrences) == Urls(Parse(text))
    ensures invalid <==> !AllAccepted(policy, Parse(text))
  {
    occurrences, invalid := [], false;
    var i := 0;
    assert text[0..] == text;
    while i < |text|
      invariant Scanned(text, occurrences, i)
      invariant AllAccepted(policy, Parse(text)) <==> !invalid && AllAccepted(policy, Parse(text[i..]))
      decreases |text| - i
    {
      var piece, end := NextPiece(text, i);
      AcceptedCons(policy, piece, Parse(text[end..]));
      if piece.Token? {
        invalid := invalid || !Accepts(policy, piece.url, text[i..end]);
        ScannedToken(text, occurrences, i, piece, end);
        occurrences := occurrences + [Occurrence(i, i + |piece.url|, piece.url)];
      } else {
        ScannedGap(text, occurrences, i, piece, end);
      }
      i := end;
    }
    assert text[i..] == [];
  }

  /** collect_coin_occurrences: the whole surface is validated before anything is claimed. */
  method CollectOccurrences(message: Message, limit: int, policy: Policy)
    returns (r: Result<seq<Occurrence>, Rejection>)
    ensures match r
      case Ok(occurrences) =>
        && 1 <= |occurrences| <= limit <= 3 && message.platform == "telegram" && message.plain
        && Located(message.text, occurrences) && Values(occurrences) == Urls(Parse(message.text))
        && AllAccepted(policy, Parse(message.text)) && SurfaceMatches(message.links, Urls(Parse(message.text)))
      case Err(error) => error == Refusal(message, limit, policy)
    ensures r.Ok? <==> Admissible(message, limit, policy)
  {
    if !(1 <= limit <= 3) {
      return Err(LimitInvalid);
    }
    if message.platform != "telegram" {
      return Err(PlatformInvalid);
    }
    if !message.plain {
      return Err(SurfaceUnsafe);
    }
    var occurrences, invalid := Locate(message.text, policy);
    ValuesOf(occurrences);
    if !(1 <= |occurrences| <= limit) {
      return Err(UrlCountInvalid);
    }
    if invalid {
      return Err(ShortInvalid);
    }
    var visible := set o | o in occurrences :: o.value;
    VisibleAreUrls(occurrences, visible);
    if (exists link | link in message.links :: link.source != Text && link.source != EntityUrl)
       || (set link | link in message.links :: link.url) != visible {
      if SurfaceMatches(message.links, Urls(Parse(message.text))) {
        NamedAreVisible(message.links, visible, Urls(Parse(message.text)));
      }
      return Err(SurfaceMismatch);
    }
    MatchedSurface(message.links, visible, Urls(Parse(message.text)));
    r := Ok(occurrences);
  }

  /** A message passes when nothing in it calls for a refusal. */
  ghost predicate Admissible(message: Message, limit: int, policy: Policy) {
    && 1 <= limit <= 3 && message.platform == "telegram" && message.plain
    && 1 <= |Urls(Parse(message.text))| <= limit && AllAccepted(policy, Parse(message.text))
    && SurfaceMatches(message.links, Urls(Parse(message.text)))
  }

  /** The first check that a message fails. */
  ghost function Refusal(message: Message, limit: int, policy: Policy): Rejection {
    if !(1 <= limit <= 3) then LimitInvalid
    else if message.platform != "telegram" then PlatformInvalid
    else if !message.plain then SurfaceUnsafe
    else if !(1 <= |Urls(Parse(message.text))| <= limit) then UrlCountInvalid
    else if !AllAccepted(policy, Parse(message.text)) then ShortInvalid
    else SurfaceMismatch
  }

  lemma VisibleAreUrls(occurrences: seq<Occurrence>, visible: set<string>)
    requires visible == set o | o in occurrences :: o.value
    ensures forall url :: url in visible <==> url in Values(occurrences)
  {
    ValuesOf(occurrences);
    forall url | url in Values(occurrences) ensures url in visible {
      ValueIsOccurrence(occurrences, url);
    }
  }

  lemma MatchedSurface(links: set<Link>, visible: set<string>, urls: multiset<string>)
    requires forall url :: url in visible <==> url in urls
    requires forall link | link in links :: link.source == Text || link.source == EntityUrl
    requires (set link | link in links :: link.url) == visible
    ensures SurfaceMatches(links, urls)
  {
    var named := set link | link in links :: link.url;
    forall url ensures url in urls <==> exists link :: link in links && link.url == url {
      assert url in named <==> url in urls;
    }
  }

  lemma NamedAreVisible(links: set<Link>, visible: set<string>, urls: multiset<string>)
    requires forall url :: url in visible <==> url in urls
    requires SurfaceMatches(links, urls)
    ensures (set link | link in links :: link.url) == visible
  {
    var named := set link | link in links :: link.url;
    forall url ensures url in named <==> url in visible {
      assert url in urls <==> exists link :: link in links && link.url == url;
    }
  }

  /** Once every occurrence of a message has a replacement, the two counts of the rendering
      are those of the occurrences: the mismatch that prepare checks for cannot happen. */
  lemma {:induction false} OccurrencesAreAllReplaced(text: string, occurrences: seq<Occurrence>, m: map<string, string>)
    requires Values(occurrences) == Urls(Parse(text))
    requires forall o | o in occurrences :: o.value in m
    ensures Replaced(Parse(text), m) == Values(occurrences) && |Replaced(Parse(text), m)| == |occurrences|
  {
    ValuesOf(occurrences);
    forall i | 0 <= i < |Parse(text)| && Parse(text)[i].Token? ensures Parse(text)[i].url in m {
      UrlIsCounted(Parse(text), i);
      ValueIsOccurrence(occurrences, Parse(text)[i].url);
    }
    AllReplaced(Parse(text), m);
  }

  lemma {:induction false} UrlIsCounted(ps: seq<Piece>, i: nat)
    requires i < |ps| && ps[i].Token?
    ensures ps[i].url in Urls(ps)
  {
    if i > 0 {
      UrlIsCounted(ps[1..], i - 1);
    }
  }

  lemma {:induction false} ValueIsOccurrence(occurrences: seq<Occurrence>, value: string)
    requires value in Values(occurrences)
    ensures exists o | o in occurrences :: o.value == value
  {
    var n := |occurrences| - 1;
    if occurrences[n].value != value {
      ValueIsOccurrence(occurrences[..n], value);
    } else {
      assert occurrences[n] in occurrences;
    }
  }
}
