/**
 URLs in message text: the maximal tokens that URL_PATTERN of relay/parser.py matches,
 each split into a URL and its trailing punctuation, and the rewriting of those URLs.
 */
module UrlText {
  import opened Prelude

  const TRAILING := ".,;:!?)]}"

  /** A maximal character run of the pattern stops at white space, brackets and quotes. */
  predicate IsStop(c: char) {
    IsSpace(c) || c in "<>[]{}\"'"
  }

  /** One letter of the scheme, case ignored; Python folds the long s into s too. */
  predicate Folds(c: char, letter: char) {
    match letter
    case 'h' => c == 'h' || c == 'H'
    case 't' => c == 't' || c == 'T'
    case 'p' => c == 'p' || c == 'P'
    case 's' => c == 's' || c == 'S' || c == '\U{17F}'
    case _ => c == letter
  }

  predicate Matches(text: string, pattern: string) {
    |pattern| <= |text| && forall i | 0 <= i < |pattern| :: Folds(text[i], pattern[i])
  }

  /** The length of the scheme at the start of a text, 0 if there is none. */
  function SchemeLength(text: string): nat {
    if Matches(text, "http://") then 7 else if Matches(text, "https://") then 8 else 0
  }

  function BodyLength(text: string): (n: nat)
    ensures n <= |text|
  {
    if text == [] || IsStop(text[0]) then 0 else 1 + BodyLength(text[1..])
  }

  /** The length of the pattern's match at the start of a text, 0 if it does not match. */
  function TokenLength(text: string): (n: nat)
    ensures n <= |text|
  {
    var scheme := SchemeLength(text);
    if scheme == 0 || BodyLength(text[scheme..]) == 0 then 0 else scheme + BodyLength(text[scheme..])
  }

  /** The length of a token without its trailing punctuation: rstrip. */
  function TrimLength(token: string): (n: nat)
    ensures n <= |token|
  {
    if token != [] && token[|token| - 1] in TRAILING then TrimLength(token[..|token| - 1]) else |token|
  }

  /** The text begins with a scheme of this length. */
  predicate BeginsWithScheme(text: string, length: nat) {
    && 7 <= length < |text| && text[0] in "hH" && text[1] in "tT" && text[2] in "tT" && text[3] in "pP"
    && ((length == 7 && text[4] == ':' && text[5] == '/' && text[6] == '/')
        || (length == 8 && text[4] in "sS\U{17F}" && text[5] == ':' && text[6] == '/' && text[7] == '/'))
  }

  /** A character that a URL may contain. */
  predicate MayContain(c: char) {
    !IsSpace(c) && c != '<' && c != '>' && c != '[' && c != ']' && c != '{' && c != '}' && c != '"' && c != '\''
  }

  /** The pattern matches where a scheme is followed by a character it may contain, and then as
      many as there are. */
  lemma TokenAnswers(text: string)
    ensures TokenLength(text) > 0 <==> exists k: nat :: BeginsWithScheme(text, k) && MayContain(text[k])
    ensures forall k: nat | BeginsWithScheme(text, k) && MayContain(text[k]) ::
      && k < TokenLength(text)
      && (forall i | k <= i < TokenLength(text) :: MayContain(text[i]))
      && (TokenLength(text) < |text| ==> !MayContain(text[TokenLength(text)]))
  {
    if BeginsWithScheme(text, 7) {
      BodyAnswers(text[7..]);
    }
    if BeginsWithScheme(text, 8) {
      BodyAnswers(text[8..]);
    }
    var scheme := SchemeLength(text);
    if scheme > 0 && scheme < |text| {
      assert BeginsWithScheme(text, scheme);
    }
  }

  lemma {:induction false} BodyAnswers(text: string)
    ensures forall i | 0 <= i < BodyLength(text) :: MayContain(text[i])
    ensures BodyLength(text) < |text| ==> !MayContain(text[BodyLength(text)])
  {
    if text != [] && !IsStop(text[0]) {
      BodyAnswers(text[1..]);
    }
  }

  /** A text is a sequence of characters outside URLs, and tokens. */
  datatype Piece = Gap(c: char) | Token(url: string, trailing: string)

  function Split(token: string): Piece {
    Token(token[..TrimLength(token)], token[TrimLength(token)..])
  }

  function Parse(text: string): seq<Piece> {
    if text == [] then []
    else
      var n := TokenLength(text);
      if n == 0 then [Gap(text[0])] + Parse(text[1..])
      else [Split(text[..n])] + Parse(text[n..])
  }

  function Shown(p: Piece): string {
    match p
    case Gap(c) => [c]
    case Token(url, trailing) => url + trailing
  }

  function Unparse(ps: seq<Piece>): string {
    if ps == [] then [] else Shown(ps[0]) + Unparse(ps[1..])
  }

  function Replace(p: Piece, m: map<string, string>): Piece {
    if p.Token? && p.url in m then Token(m[p.url], p.trailing) else p
  }

  function ReplaceAll(ps: seq<Piece>, m: map<string, string>): seq<Piece> {
    seq(|ps|, i requires 0 <= i < |ps| => Replace(ps[i], m))
  }

  /** render_affiliate_link_replacements: the text, and the mapped URLs it replaced. */
  function Render(text: string, m: map<string, string>): string {
    Unparse(ReplaceAll(Parse(text), m))
  }

  function Urls(ps: seq<Piece>): multiset<string> {
    if ps == [] then multiset{}
    else (if ps[0].Token? then multiset{ps[0].url} else multiset{}) + Urls(ps[1..])
  }

  function Replaced(ps: seq<Piece>, m: map<string, string>): multiset<string> {
    if ps == [] then multiset{}
    else (if ps[0].Token? && ps[0].url in m then multiset{ps[0].url} else multiset{}) + Replaced(ps[1..], m)
  }

  // ------------------------------------------------------- parsing and showing

  /** Parsing loses nothing: the pieces of a text show the text. */
  lemma {:induction false} ShowingAParse(text: string)
    ensures Unparse(Parse(text)) == text
  {
    if text != [] {
      var n := TokenLength(text);
      if n == 0 {
        ShowingAParse(text[1..]);
      } else {
        ShowingAParse(text[n..]);
        assert text == text[..n] + text[n..];
      }
    }
  }

  predicate AllBody(s: string) {
    forall c | c in s :: !IsStop(c)
  }

  predicate AllTrailing(s: string) {
    forall c | c in s :: c in TRAILING
  }

  lemma {:induction false} BodyOf(body: string, rest: string)
    requires AllBody(body) && (rest == [] || IsStop(rest[0]))
    ensures BodyLength(body + rest) == |body|
  {
    if body == [] {
      assert body + rest == rest;
    } else {
      assert (body + rest)[1..] == body[1..] + rest;
      BodyOf(body[1..], rest);
    }
  }

  lemma {:induction false} BodyIsBody(text: string)
    ensures AllBody(text[..BodyLength(text)])
    ensures BodyLength(text) < |text| ==> IsStop(text[BodyLength(text)])
  {
    if text != [] && !IsStop(text[0]) {
      BodyIsBody(text[1..]);
      assert text[..BodyLength(text)] == [text[0]] + text[1..][..BodyLength(text[1..])];
    }
  }

  /** What makes a string a token: a scheme, a body, and nothing that would stop it. */
  predicate IsToken(token: string) {
    SchemeLength(token) > 0 && |token| > SchemeLength(token) && AllBody(token)
  }

  lemma SchemeIsBody(text: string)
    ensures SchemeLength(text) <= |text| && AllBody(text[..SchemeLength(text)])
  {
    if Matches(text, "http://") {
      SchemeChars(text, "http://");
    } else if Matches(text, "https://") {
      SchemeChars(text, "https://");
    }
  }

  lemma SchemeChars(text: string, pattern: string)
    requires Matches(text, pattern) && (pattern == "http://" || pattern == "https://")
    ensures AllBody(text[..|pattern|])
  {
    forall i | 0 <= i < |pattern| ensures !IsStop(text[i]) {
      assert Folds(text[i], pattern[i]);
    }
  }

  lemma MatchesPrefix(a: string, b: string, pattern: string)
    requires |pattern| <= |a|
    ensures Matches(a + b, pattern) == Matches(a, pattern)
  {
    forall i | 0 <= i < |pattern| ensures (a + b)[i] == a[i] {
    }
  }

  /** A scheme that fits in a prefix is found there. */
  lemma SchemeOfPrefix(a: string, b: string)
    requires |a| >= 8 || (|a| >= 7 && Matches(a, "http://"))
    ensures SchemeLength(a + b) == SchemeLength(a)
  {
    MatchesPrefix(a, b, "http://");
    if |a| >= 8 {
      MatchesPrefix(a, b, "https://");
    }
  }

  lemma TokenSchemePrefix(token: string, rest: string)
    requires SchemeLength(token) > 0
    ensures SchemeLength(token + rest) == SchemeLength(token)
  {
    SchemeOfPrefix(token, rest);
  }

  /** A token before the end or a stop character is matched in full. */
  lemma TokenIsMatched(token: string, rest: string)
    requires IsToken(token) && (rest == [] || IsStop(rest[0]))
    ensures TokenLength(token + rest) == |token|
  {
    var n := SchemeLength(token);
    TokenSchemePrefix(token, rest);
    assert (token + rest)[n..] == token[n..] + rest;
    BodyOf(token[n..], rest);
  }

  lemma MatchIsToken(text: string)
    requires TokenLength(text) > 0
    ensures IsToken(text[..TokenLength(text)])
    ensures TokenLength(text) < |text| ==> IsStop(text[TokenLength(text)])
  {
    var n, scheme := TokenLength(text), SchemeLength(text);
    BodyIsBody(text[scheme..]);
    SchemeIsBody(text);
    var token := text[..n];
    assert token == text[..scheme] + text[scheme..][..BodyLength(text[scheme..])];
    assert text == token + text[n..];
    SchemeOfMatch(token, text[n..], scheme);
  }

  lemma SchemeOfMatch(token: string, rest: string, scheme: nat)
    requires SchemeLength(token + rest) == scheme > 0 && |token| > scheme
    ensures SchemeLength(token) == scheme
  {
    SchemeOfPrefix(token, rest);
  }

  predicate EndsPlainly(url: string) {
    url != [] && url[|url| - 1] !in TRAILING
  }

  /** A URL that may stand in a text on its own: a token without trailing punctuation. */
  predicate IsWhole(url: string) {
    IsToken(url) && EndsPlainly(url)
  }

  lemma {:induction false} TrimOf(token: string)
    ensures AllTrailing(token[TrimLength(token)..])
    ensures TrimLength(token) > 0 ==> EndsPlainly(token[..TrimLength(token)])
  {
    if token != [] && token[|token| - 1] in TRAILING {
      var init := token[..|token| - 1];
      TrimOf(init);
      assert token[TrimLength(token)..] == init[TrimLength(init)..] + [token[|token| - 1]];
      assert token[..TrimLength(token)] == init[..TrimLength(init)];
    } else {
      assert token[..|token|] == token;
    }
  }

  lemma {:induction false} TrimIsUnique(url: string, trailing: string)
    requires EndsPlainly(url) && AllTrailing(trailing)
    ensures TrimLength(url + trailing) == |url|
  {
    if trailing == [] {
      assert url + trailing == url;
    } else {
      var init := trailing[..|trailing| - 1];
      assert (url + trailing)[..|url + trailing| - 1] == url + init;
      TrimIsUnique(url, init);
    }
  }

  // ------------------------------------------------------- well-formed pieces

  predicate StartsWithStop(ps: seq<Piece>) {
    ps == [] || (ps[0].Gap? && IsStop(ps[0].c))
  }

  /** Pieces that a text can be parsed into. */
  ghost predicate WellFormed(ps: seq<Piece>) {
    ps == [] ||
    (WellFormed(ps[1..]) &&
     match ps[0]
     case Gap(_) => TokenLength(Unparse(ps)) == 0
     case Token(url, trailing) =>
       IsToken(url + trailing) && EndsPlainly(url) && AllTrailing(trailing) && StartsWithStop(ps[1..]))
  }

  lemma StopIsNoToken(text: string)
    requires text != [] && IsStop(text[0])
    ensures TokenLength(text) == 0
  {
    MatchAt(text, "http://", 0);
    MatchAt(text, "https://", 0);
  }

  lemma MatchAt(text: string, pattern: string, i: nat)
    ensures Matches(text, pattern) && i < |pattern| ==> Folds(text[i], pattern[i])
  {
  }

  lemma TokenUrlEndsPlainly(token: string)
    requires IsToken(token)
    ensures TrimLength(token) > 0
  {
    TrimOf(token);
    if TrimLength(token) == 0 {
      assert token[0] in token[TrimLength(token)..];
      TokenStart(token, "");
    }
  }

  /** A token starts with an h. */
  lemma TokenStart(token: string, rest: string)
    requires IsToken(token)
    ensures (token + rest)[0] == token[0] && Folds(token[0], 'h') && token[0] !in TRAILING
  {
    if Matches(token, "http://") {
      assert Folds(token[0], "http://"[0]);
    } else {
      assert Folds(token[0], "https://"[0]);
    }
  }

  /** The pieces of a text are well formed. */
  lemma {:induction false} ParsesAreWellFormed(text: string)
    ensures WellFormed(Parse(text))
  {
    if text != [] {
      var n := TokenLength(text);
      if n == 0 {
        ParsesAreWellFormed(text[1..]);
        ShowingAParse(text);
        assert Parse(text)[1..] == Parse(text[1..]);
      } else {
        ParsesAreWellFormed(text[n..]);
        MatchIsToken(text);
        TokenUrlEndsPlainly(text[..n]);
        TrimOf(text[..n]);
        if text[n..] != [] {
          StopIsNoToken(text[n..]);
        }
        var token := text[..n];
        assert token[..TrimLength(token)] + token[TrimLength(token)..] == token;
        assert Parse(text)[1..] == Parse(text[n..]);
      }
    }
  }

  /** And well-formed pieces are the pieces of the text they show. */
  lemma {:induction false} ParsingWhatIsShown(ps: seq<Piece>)
    requires WellFormed(ps)
    ensures Parse(Unparse(ps)) == ps
  {
    if ps != [] {
      ParsingWhatIsShown(ps[1..]);
      FirstIsParsed(ps);
      assert ps == [ps[0]] + ps[1..];
    }
  }

  lemma {:induction false} FirstIsParsed(ps: seq<Piece>)
    requires WellFormed(ps) && ps != []
    ensures Parse(Unparse(ps)) == [ps[0]] + Parse(Unparse(ps[1..]))
  {
    var rest := Unparse(ps[1..]);
    if ps[0].Gap? {
      GapIsParsed(ps[0].c, rest);
    } else {
      TokenIsParsed(ps[0].url, ps[0].trailing, rest);
    }
  }

  lemma GapIsParsed(c: char, rest: string)
    requires TokenLength([c] + rest) == 0
    ensures Parse([c] + rest) == [Gap(c)] + Parse(rest)
  {
    assert ([c] + rest)[1..] == rest;
  }

  lemma TokenIsParsed(url: string, trailing: string, rest: string)
    requires IsToken(url + trailing) && EndsPlainly(url) && AllTrailing(trailing) && (rest == [] || IsStop(rest[0]))
    ensures Parse(url + trailing + rest) == [Token(url, trailing)] + Parse(rest)
  {
    var token := url + trailing;
    TokenIsMatched(token, rest);
    TrimIsUnique(url, trailing);
    assert token[..|url|] == url && token[|url|..] == trailing;
    assert (token + rest)[..|token|] == token && (token + rest)[|token|..] == rest;
  }

  // ------------------------------------------------------- replacing URLs

  ghost predicate AllWhole(urls: set<string>) {
    forall u | u in urls :: IsWhole(u)
  }

  lemma ReplaceCons(ps: seq<Piece>, m: map<string, string>)
    requires ps != []
    ensures ReplaceAll(ps, m)[0] == Replace(ps[0], m) && ReplaceAll(ps, m)[1..] == ReplaceAll(ps[1..], m)
  {
  }

  /** The characters before the first token of a sequence of pieces. */
  function Lead(ps: seq<Piece>): string {
    if ps == [] || ps[0].Token? then [] else [ps[0].c] + Lead(ps[1..])
  }

  function Tail(ps: seq<Piece>): (tail: seq<Piece>)
    ensures tail == [] || tail[0].Token?
  {
    if ps == [] || ps[0].Token? then ps else Tail(ps[1..])
  }

  lemma {:induction false} LeadAndTail(ps: seq<Piece>)
    ensures Unparse(ps) == Lead(ps) + Unparse(Tail(ps))
    ensures WellFormed(ps) ==> WellFormed(Tail(ps))
  {
    if ps != [] && ps[0].Gap? {
      LeadAndTail(ps[1..]);
      assert Unparse(ps) == [ps[0].c] + Unparse(ps[1..]);
    }
  }

  lemma {:induction false} ReplaceTail(ps: seq<Piece>, m: map<string, string>)
    ensures Lead(ReplaceAll(ps, m)) == Lead(ps) && Tail(ReplaceAll(ps, m)) == ReplaceAll(Tail(ps), m)
  {
    if ps != [] {
      ReplaceCons(ps, m);
      if ps[0].Gap? {
        ReplaceTail(ps[1..], m);
      }
    }
  }

  predicate StartsLikeToken(text: string) {
    text != [] && Folds(text[0], 'h')
  }

  /** A scheme cannot reach from the characters before a token into the token. */
  lemma SchemeStaysBefore(gap: string, a: string, b: string)
    requires gap != [] && StartsLikeToken(a) && StartsLikeToken(b)
    ensures SchemeLength(gap + a) == SchemeLength(gap + b) <= |gap|
  {
    SchemeEndsBefore(gap, a, "http://");
    SchemeEndsBefore(gap, a, "https://");
    SchemeEndsBefore(gap, b, "http://");
    SchemeEndsBefore(gap, b, "https://");
    if |gap| >= 7 {
      MatchesPrefix(gap, a, "http://");
      MatchesPrefix(gap, b, "http://");
    }
    if |gap| >= 8 {
      MatchesPrefix(gap, a, "https://");
      MatchesPrefix(gap, b, "https://");
    }
  }

  lemma SchemeEndsBefore(gap: string, a: string, pattern: string)
    requires gap != [] && StartsLikeToken(a) && (pattern == "http://" || pattern == "https://")
    ensures Matches(gap + a, pattern) ==> |pattern| <= |gap|
  {
    MatchAt(gap + a, pattern, |gap|);
  }

  lemma GapStaysGap(gap: string, a: string, b: string)
    requires gap != [] && StartsLikeToken(a) && StartsLikeToken(b)
    ensures TokenLength(gap + a) == 0 <==> TokenLength(gap + b) == 0
  {
    SchemeStaysBefore(gap, a, b);
    var n := SchemeLength(gap + a);
    assert (gap + a)[n..] == gap[n..] + a && (gap + b)[n..] == gap[n..] + b;
  }

  lemma ShownTokenStarts(ps: seq<Piece>)
    requires WellFormed(ps) && ps != [] && ps[0].Token?
    ensures StartsLikeToken(Unparse(ps))
  {
    TokenStart(ps[0].url + ps[0].trailing, Unparse(ps[1..]));
  }

  lemma WholeWithTrailing(url: string, before: string, trailing: string)
    requires IsWhole(url) && IsToken(before + trailing) && AllTrailing(trailing)
    ensures IsToken(url + trailing)
  {
    TokenSchemePrefix(url, trailing);
    forall c | c in url + trailing ensures !IsStop(c) {
      if c in trailing {
        assert c in before + trailing;
      }
    }
  }

  lemma GapBeforeReplaced(ps: seq<Piece>, qs: seq<Piece>, m: map<string, string>)
    requires ps != [] && ps[0].Gap? && qs == ReplaceAll(ps, m) && TokenLength(Unparse(ps)) == 0
    requires WellFormed(ps[1..]) && WellFormed(qs[1..])
    ensures TokenLength(Unparse(qs)) == 0
  {
    LeadAndTail(ps);
    LeadAndTail(qs);
    LeadAndTail(ps[1..]);
    LeadAndTail(qs[1..]);
    ReplaceTail(ps, m);
    if Tail(ps) != [] {
      ShownTokenStarts(Tail(ps));
      ShownTokenStarts(Tail(qs));
      GapStaysGap(Lead(ps), Unparse(Tail(ps)), Unparse(Tail(qs)));
    }
  }

  /** Whole URLs in the place of URLs leave well-formed pieces. */
  lemma {:induction false} ReplacingKeepsForm(ps: seq<Piece>, m: map<string, string>)
    requires WellFormed(ps) && AllWhole(m.Values)
    ensures WellFormed(ReplaceAll(ps, m))
  {
    if ps != [] {
      ReplaceCons(ps, m);
      ReplacingKeepsForm(ps[1..], m);
      var qs := ReplaceAll(ps, m);
      match ps[0]
      case Token(url, trailing) =>
        if url in m {
          assert m[url] in m.Values;
          WholeWithTrailing(m[url], url, trailing);
        }
        if ps[1..] != [] {
          ReplaceCons(ps[1..], m);
        }
      case Gap(c) =>
        GapBeforeReplaced(ps, qs, m);
    }
  }

  /** The URLs of the rewritten text are those of the text, replaced: everything outside
      them, trailing punctuation included, is where it was. */
  lemma {:induction false} RenderIsLocal(text: string, m: map<string, string>)
    requires AllWhole(m.Values)
    ensures Parse(Render(text, m)) == ReplaceAll(Parse(text), m)
  {
    ParsesAreWellFormed(text);
    ReplacingKeepsForm(Parse(text), m);
    ParsingWhatIsShown(ReplaceAll(Parse(text), m));
  }

  // ------------------------------------------------------- the inverse

  ghost predicate Injective(m: map<string, string>) {
    forall a, b | a in m && b in m && m[a] == m[b] :: a == b
  }

  function Inverse(m: map<string, string>): map<string, string>
    requires Injective(m)
  {
    map k | k in m :: m[k] := k
  }

  /** A URL of the text that is not to be replaced but is what another is replaced by. */
  ghost predicate Collides(text: string, m: map<string, string>) {
    HasCollision(Parse(text), m)
  }

  ghost predicate HasCollision(ps: seq<Piece>, m: map<string, string>) {
    exists i | 0 <= i < |ps| :: ps[i].Token? && ps[i].url !in m && ps[i].url in m.Values
  }

  lemma ReplaceBack(p: Piece, m: map<string, string>)
    requires Injective(m)
    ensures Replace(Replace(p, m), Inverse(m)) == p <==> !(p.Token? && p.url !in m && p.url in m.Values)
  {
    if p.Token? && p.url in m {
      assert Inverse(m)[m[p.url]] == p.url;
    }
  }

  /** Rewriting with a one-to-one map to whole URLs, none of which stands in the text in a
      place of its own, is undone by rewriting with the inverse map. */
  lemma {:induction false} RenderingBack(text: string, m: map<string, string>)
    requires Injective(m) && AllWhole(m.Values) && !Collides(text, m)
    ensures Render(Render(text, m), Inverse(m)) == text
  {
    RenderIsLocal(text, m);
    BackIff(Parse(text), m);
    ShowingAParse(text);
  }

  /** Rewriting with a one-to-one map and then with its inverse gives the text back exactly
      when no URL left in place is itself a replacement. */
  lemma {:induction false} RenderingBackIff(text: string, m: map<string, string>)
    requires Injective(m) && AllWhole(m.Keys) && AllWhole(m.Values)
    ensures Render(Render(text, m), Inverse(m)) == text <==> !Collides(text, m)
  {
    var ps, inverse := Parse(text), Inverse(m);
    var there := ReplaceAll(ps, m);
    var back := ReplaceAll(there, inverse);
    RenderIsLocal(text, m);
    ParsesAreWellFormed(text);
    ReplacingKeepsForm(ps, m);
    assert inverse.Values <= m.Keys;
    ReplacingKeepsForm(there, inverse);
    ParsingWhatIsShown(back);
    ShowingAParse(text);
    BackIff(ps, m);
  }

  lemma {:induction false} BackIff(ps: seq<Piece>, m: map<string, string>)
    requires Injective(m)
    ensures ReplaceAll(ReplaceAll(ps, m), Inverse(m)) == ps <==> !HasCollision(ps, m)
  {
    var back := ReplaceAll(ReplaceAll(ps, m), Inverse(m));
    forall i | 0 <= i < |ps|
      ensures back[i] == ps[i] <==> !(ps[i].Token? && ps[i].url !in m && ps[i].url in m.Values)
    {
      ReplaceBack(ps[i], m);
    }
  }

  // ------------------------------------------------------- counts

  lemma {:induction false} ReplacedCounts(ps: seq<Piece>, m: map<string, string>, url: string)
    ensures Replaced(ps, m)[url] == if url in m then Urls(ps)[url] else 0
  {
    if ps != [] {
      ReplacedCounts(ps[1..], m, url);
    }
  }

  lemma {:induction false} AllReplaced(ps: seq<Piece>, m: map<string, string>)
    requires forall i | 0 <= i < |ps| && ps[i].Token? :: ps[i].url in m
    ensures Replaced(ps, m) == Urls(ps)
  {
    if ps != [] {
      forall i | 0 <= i < |ps[1..]| && ps[1..][i].Token? ensures ps[1..][i].url in m {
        assert ps[i + 1].Token?;
      }
      AllReplaced(ps[1..], m);
    }
  }
}
