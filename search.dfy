/**
 * The client-side search engine of the data hook
 * (artverse-archive/src/hooks/useNFTData.tsx): a query string is cut into
 * tokens, each token becomes a field filter or a free term, and the
 * catalogue is filtered by the conjunction of the resulting clauses.
 */
module Search {
  import opened Wrappers
  import opened Text
  import opened Catalog

  // ---------------------------------------------------------------------------
  // Tokeniser: `query.match(/(".*?"|\S+)/g) || []`
  // ---------------------------------------------------------------------------

  /**
   * Where the lazy `".*?"` alternative closes a quoted run whose body starts at `j`:
   * the first `"` at or after `j`, unless a line terminator or the end comes first.
   */
  function ClosingQuote(s: string, j: nat): (r: Option<nat>)
    requires j <= |s|
    decreases |s| - j
    ensures r.Some? ==> j <= r.value < |s| && s[r.value] == '"'
    ensures r.Some? ==> forall k :: j <= k < r.value ==> s[k] != '"' && !IsLineTerminator(s[k])
  {
    if j == |s| then None
    else if s[j] == '"' then Some(j)
    else if IsLineTerminator(s[j]) then None
    else ClosingQuote(s, j + 1)
  }

  /** Without a closing quote, a line terminator or the end of the query comes before any `"`. */
  lemma {:induction false} NoClosingQuote(s: string, j: nat)
    requires j <= |s| && ClosingQuote(s, j).None?
    ensures exists e :: StopsBeforeQuote(s, j, e)
    decreases |s| - j
  {
    if j == |s| || IsLineTerminator(s[j]) {
      assert StopsBeforeQuote(s, j, j);
    } else {
      NoClosingQuote(s, j + 1);
      var e :| StopsBeforeQuote(s, j + 1, e);
      assert StopsBeforeQuote(s, j, e);
    }
  }

  /** `e` is the end of the query or a line terminator, and no `"` lies in `s[j..e]`. */
  predicate StopsBeforeQuote(s: string, j: nat, e: nat) {
    j <= e <= |s| && (e < |s| ==> IsLineTerminator(s[e])) && forall k :: j <= k < e ==> s[k] != '"'
  }

  /** The first `"` after `j`, with no line terminator before it, closes the run. */
  lemma {:induction false} ClosingQuoteAt(s: string, j: nat, e: nat)
    requires j <= e < |s| && s[e] == '"'
    requires forall k :: j <= k < e ==> s[k] != '"' && !IsLineTerminator(s[k])
    ensures ClosingQuote(s, j) == Some(e)
    decreases e - j
  {
    if j < e {
      ClosingQuoteAt(s, j + 1, e);
    }
  }

  /** The end of the maximal non-whitespace run (`\S+`) starting at `i`. */
  function RunEnd(s: string, i: nat): (j: nat)
    requires i <= |s|
    decreases |s| - i
    ensures i <= j <= |s|
    ensures j < |s| ==> IsSpace(s[j])
    ensures forall k :: i <= k < j ==> !IsSpace(s[k])
  {
    if i < |s| && !IsSpace(s[i]) then RunEnd(s, i + 1) else i
  }

  /** The matches of the global regular expression from position `i` on. */
  function TokensFrom(s: string, i: nat): (parts: seq<string>)
    requires i <= |s|
    decreases |s| - i
    ensures forall t :: t in parts ==> t != ""
    ensures parts == [] <==> forall k :: i <= k < |s| ==> IsSpace(s[k])
  {
    if i == |s| then []
    else if IsSpace(s[i]) then TokensFrom(s, i + 1)
    else if s[i] == '"' && ClosingQuote(s, i + 1).Some? then
      var j := ClosingQuote(s, i + 1).value;
      [s[i..j + 1]] + TokensFrom(s, j + 1)
    else
      var j := RunEnd(s, i);
      [s[i..j]] + TokensFrom(s, j)
  }

  function Tokenize(query: string): seq<string> {
    TokensFrom(query, 0)
  }

  /** A non-empty word with no whitespace that does not open a quote. */
  predicate IsBareWord(w: string) {
    w != [] && w[0] != '"' && forall k :: 0 <= k < |w| ==> !IsSpace(w[k])
  }

  /** The run of a bare word ends where the word does. */
  lemma RunOfWord(s: string, i: nat, w: string)
    requires IsBareWord(w) && i + |w| <= |s| && s[i..i + |w|] == w
    requires i + |w| < |s| ==> IsSpace(s[i + |w|])
    ensures RunEnd(s, i) == i + |w|
  {
  }

  /** A bare word followed by whitespace or the end is the next token. */
  lemma WordToken(s: string, i: nat, w: string)
    requires IsBareWord(w) && i + |w| <= |s| && s[i..i + |w|] == w
    requires i + |w| < |s| ==> IsSpace(s[i + |w|])
    ensures TokensFrom(s, i) == [w] + TokensFrom(s, i + |w|)
  {
    RunOfWord(s, i, w);
    assert s[i] == w[0] && !IsSpace(s[i]) && s[i] != '"';
  }

  /** Words separated by single spaces tokenise back into those words. */
  lemma {:induction false} TokensOfJoin(s: string, i: nat, words: seq<string>)
    requires i <= |s| && s[i..] == Join(words, " ")
    requires forall w :: w in words ==> IsBareWord(w)
    ensures TokensFrom(s, i) == words
    decreases |words|
  {
    if words == [] {
      assert |s[i..]| == 0;
    } else if |words| == 1 {
      LastWord(s, i, words[0]);
    } else {
      var w := words[0];
      var rest := Join(words[1..], " ");
      assert s[i..] == w + " " + rest;
      SplitAtSpace(s, i, w, rest);
      TokensOfJoin(s, i + |w| + 1, words[1..]);
      WordThenSpace(s, i, w);
      assert words == [w] + words[1..];
    }
  }

  lemma LastWord(s: string, i: nat, w: string)
    requires IsBareWord(w) && i <= |s| && s[i..] == w
    ensures TokensFrom(s, i) == [w]
  {
    assert s[i..i + |w|] == w;
    WordToken(s, i, w);
  }

  lemma WordThenSpace(s: string, i: nat, w: string)
    requires IsBareWord(w) && i + |w| < |s| && s[i..i + |w|] == w && s[i + |w|] == ' '
    ensures TokensFrom(s, i) == [w] + TokensFrom(s, i + |w| + 1)
  {
    WordToken(s, i, w);
  }

  lemma SplitAtSpace(s: string, i: nat, w: string, rest: string)
    requires i <= |s| && s[i..] == w + " " + rest
    ensures i + |w| < |s| && s[i..i + |w|] == w && s[i + |w|] == ' ' && s[i + |w| + 1..] == rest
  {
    assert s[i..i + |w|] == s[i..][..|w|];
    assert s[i + |w|] == s[i..][|w|];
    assert s[i + |w| + 1..] == s[i..][|w| + 1..];
  }

  lemma TokenizeJoin(words: seq<string>)
    requires forall w :: w in words ==> IsBareWord(w)
    ensures Tokenize(Join(words, " ")) == words
  {
    var s := Join(words, " ");
    assert s[0..] == s;
    TokensOfJoin(s, 0, words);
  }

  /** A query with no whitespace that does not open a quote is one token, itself. */
  lemma SingleRunIsOneToken(s: string)
    requires s != [] && s[0] != '"'
    requires forall k :: 0 <= k < |s| ==> !IsSpace(s[k])
    ensures Tokenize(s) == [s]
  {
    assert RunEnd(s, 0) == |s|;
    assert s[0..|s|] == s;
  }

  /** Without double quotes in the query, every token is a whitespace-free run of it. */
  lemma {:induction false} UnquotedTokensHaveNoSpace(s: string, i: nat)
    requires i <= |s|
    requires forall k :: 0 <= k < |s| ==> s[k] != '"'
    ensures forall t :: t in TokensFrom(s, i) ==> forall c :: c in t ==> !IsSpace(c)
    decreases |s| - i
  {
    if i < |s| {
      if IsSpace(s[i]) {
        UnquotedTokensHaveNoSpace(s, i + 1);
      } else {
        var j := RunEnd(s, i);
        UnquotedTokensHaveNoSpace(s, j);
        forall c | c in s[i..j] ensures !IsSpace(c) {
          var k :| 0 <= k < j - i && s[i..j][k] == c;
          assert s[i + k] == c;
        }
      }
    }
  }

  // ---------------------------------------------------------------------------
  // Classifying one token
  // ---------------------------------------------------------------------------

  /** A token `/^"(.*)"$/` matches: a pair of double quotes around a body without line terminators. */
  predicate QuotedOnOneLine(part: string) {
    |part| >= 2 && part[0] == '"' && part[|part| - 1] == '"'
    && forall k :: 1 <= k < |part| - 1 ==> !IsLineTerminator(part[k])
  }

  /** `part.replace(/^"(.*)"$/, '$1')`: strip one pair of enclosing double quotes. */
  function StripQuotes(part: string): (clean: string)
    ensures clean != part ==> part == "\"" + clean + "\""
    ensures QuotedOnOneLine(part) ==> part == "\"" + clean + "\""
    ensures !QuotedOnOneLine(part) ==> clean == part
  {
    if QuotedOnOneLine(part) then part[1..|part| - 1] else part
  }

  /**
   * A quoted phrase on one line is a single token, and its body is what gets
   * classified: `"bored ape"` searches for the term `bored ape`.
   */
  lemma QuotedPhrase(p: string)
    requires forall k :: 0 <= k < |p| ==> p[k] != '"' && !IsLineTerminator(p[k])
    ensures Tokenize("\"" + p + "\"") == ["\"" + p + "\""]
    ensures TokenOf("\"" + p + "\"") == Classify(p)
  {
    var s := "\"" + p + "\"";
    assert forall k :: 1 <= k < |p| + 1 ==> s[k] == p[k - 1];
    ClosingQuoteAt(s, 1, |p| + 1);
    assert s[0..|p| + 2] == s;
    assert TokensFrom(s, 0) == [s] + TokensFrom(s, |s|);
    assert QuotedOnOneLine(s);
    assert s[1..|s| - 1] == p;
  }

  /** What one token contributes to the parsed query. */
  datatype Token =
    | ChainFilter(chain: string)
    | FileTypeFilter(fileType: string)
    | TokenIdFilter(tokenId: string)
    | FreeTerm(term: string)

  /** The `if`/`else if` chain of the parser, applied to an unquoted token. */
  function Classify(clean: string): Token {
    if StartsWith(clean, "blockchain:") then ChainFilter(Lower(clean[10..]))
    else if StartsWith(clean, "chain:") then ChainFilter(Lower(clean[6..]))
    else if StartsWith(clean, "type:") then FileTypeFilter(Lower(clean[5..]))
    else if StartsWith(clean, "#") then TokenIdFilter(clean[1..])
    else if IsDigits(clean) then TokenIdFilter(clean)
    else FreeTerm(Lower(clean))
  }

  function TokenOf(part: string): Token {
    Classify(StripQuotes(part))
  }

  /** The tokens of a query, classified. */
  function Classified(parts: seq<string>): (ts: seq<Token>)
    ensures |ts| == |parts| && forall i :: 0 <= i < |parts| ==> ts[i] == TokenOf(parts[i])
  {
    seq(|parts|, i requires 0 <= i < |parts| => TokenOf(parts[i]))
  }

  /**
   * The prefix forms of the mini-language. `blockchain:` is cut one character
   * short, so the stored chain keeps the colon.
   */
  lemma BlockchainPrefixKeepsColon(x: string)
    ensures Classify("blockchain:" + x) == ChainFilter(":" + Lower(x))
  {
    assert ("blockchain:" + x)[..11] == "blockchain:";
    assert ("blockchain:" + x)[10..] == ":" + x;
    assert Lower(":" + x) == ":" + Lower(x);
  }

  lemma ChainPrefix(x: string)
    ensures Classify("chain:" + x) == ChainFilter(Lower(x))
  {
    var s := "chain:" + x;
    NotPrefix(s, "blockchain:");
    assert s[..6] == "chain:";
    assert s[6..] == x;
  }

  lemma TypePrefix(x: string)
    ensures Classify("type:" + x) == FileTypeFilter(Lower(x))
  {
    var s := "type:" + x;
    NotPrefix(s, "blockchain:");
    NotPrefix(s, "chain:");
    assert s[..5] == "type:";
    assert s[5..] == x;
  }

  /** `#` and bare digits set the token id verbatim, without folding case. */
  lemma TokenIdForms(x: string)
    ensures Classify("#" + x) == TokenIdFilter(x)
    ensures IsDigits(x) ==> Classify(x) == TokenIdFilter(x)
  {
    var s := "#" + x;
    NotPrefix(s, "blockchain:");
    NotPrefix(s, "chain:");
    NotPrefix(s, "type:");
    assert s[..1] == "#";
    assert s[1..] == x;
    if IsDigits(x) {
      assert IsDigit(x[0]);
      NotPrefix(x, "blockchain:");
      NotPrefix(x, "chain:");
      NotPrefix(x, "type:");
      NotPrefix(x, "#");
    }
  }

  // ---------------------------------------------------------------------------
  // The parsed query
  // ---------------------------------------------------------------------------

  /** `{ terms, filters }`; an absent filter key is `None`. */
  datatype ParsedQuery = ParsedQuery(
    terms: seq<string>,
    blockchain: Option<string>,
    fileType: Option<string>,
    tokenId: Option<string>)

  const EmptyQuery := ParsedQuery([], None, None, None)

  /** The effect of one token: overwrite its filter key, or append its term. */
  function Apply(q: ParsedQuery, t: Token): ParsedQuery {
    match t
    case ChainFilter(v) => q.(blockchain := Some(v))
    case FileTypeFilter(v) => q.(fileType := Some(v))
    case TokenIdFilter(v) => q.(tokenId := Some(v))
    case FreeTerm(v) => q.(terms := q.terms + [v])
  }

  /** The parsed query of a token list: the tokens applied left to right to an empty query. */
  function ParseTokens(ts: seq<Token>): ParsedQuery {
    if ts == [] then EmptyQuery
    else Apply(ParseTokens(ts[..|ts| - 1]), ts[|ts| - 1])
  }

  function ParseQuery(query: string): ParsedQuery {
    ParseTokens(Classified(Tokenize(query)))
  }

  lemma ParseOneToken(t: Token)
    ensures ParseTokens([t]) == Apply(EmptyQuery, t)
  {
    assert [t][..0] == [];
  }

  /**
   * `parseSearchQuery`: one pass over the tokens, pushing terms and overwriting
   * filters; `q` holds the `terms` array and the `filters` object together.
   */
  method ParseSearchQuery(query: string) returns (q: ParsedQuery)
    ensures q == ParseQuery(query)
  {
    var parts := Tokenize(query);
    q := EmptyQuery;
    var i := 0;
    while i < |parts|
      invariant 0 <= i <= |parts|
      invariant q == ParseTokens(Classified(parts[..i]))
    {
      ParseStep(parts, i);
      q := AddPart(q, parts[i]);
      i := i + 1;
    }
    assert parts[..|parts|] == parts;
  }

  /** The `forEach` callback: the quotes come off, then the first matching prefix form decides. */
  method AddPart(q: ParsedQuery, part: string) returns (q': ParsedQuery)
    ensures q' == Apply(q, TokenOf(part))
  {
    var clean := StripQuotes(part);
    q' := q;
    if StartsWith(clean, "blockchain:") {
      q' := q'.(blockchain := Some(Lower(clean[10..])));
    } else if StartsWith(clean, "chain:") {
      q' := q'.(blockchain := Some(Lower(clean[6..])));
    } else if StartsWith(clean, "type:") {
      q' := q'.(fileType := Some(Lower(clean[5..])));
    } else if StartsWith(clean, "#") {
      q' := q'.(tokenId := Some(clean[1..]));
    } else if IsDigits(clean) {
      q' := q'.(tokenId := Some(clean));
    } else {
      q' := q'.(terms := q'.terms + [Lower(clean)]);
    }
  }

  /** Parsing one more part applies its token to the query parsed so far. */
  lemma ParseStep(parts: seq<string>, i: nat)
    requires i < |parts|
    ensures ParseTokens(Classified(parts[..i + 1])) == Apply(ParseTokens(Classified(parts[..i])), TokenOf(parts[i]))
  {
    var ts := Classified(parts[..i + 1]);
    assert ts[..i] == Classified(parts[..i]);
  }

  /** The three filter keys. */
  datatype Field = BlockchainField | FileTypeField | TokenIdField

  function FilterValue(q: ParsedQuery, f: Field): Option<string> {
    match f
    case BlockchainField => q.blockchain
    case FileTypeField => q.fileType
    case TokenIdField => q.tokenId
  }

  /** The value a token assigns to filter key `f`, if it assigns one. */
  function Sets(t: Token, f: Field): Option<string> {
    match (t, f)
    case (ChainFilter(v), BlockchainField) => Some(v)
    case (FileTypeFilter(v), FileTypeField) => Some(v)
    case (TokenIdFilter(v), TokenIdField) => Some(v)
    case _ => None
  }

  lemma ApplyFilter(q: ParsedQuery, t: Token, f: Field)
    ensures FilterValue(Apply(q, t), f) == if Sets(t, f).Some? then Sets(t, f) else FilterValue(q, f)
  {
  }

  /** A filter key is set exactly when some token sets it, and then to a value some token gave it. */
  lemma {:induction false} FilterComesFromSomeToken(ts: seq<Token>, f: Field)
    ensures FilterValue(ParseTokens(ts), f).None? <==> forall k :: 0 <= k < |ts| ==> Sets(ts[k], f).None?
    ensures FilterValue(ParseTokens(ts), f).Some? ==>
      exists k :: 0 <= k < |ts| && Sets(ts[k], f) == FilterValue(ParseTokens(ts), f)
  {
    if ts != [] {
      var n := |ts| - 1;
      var init := ts[..n];
      FilterComesFromSomeToken(init, f);
      ApplyFilter(ParseTokens(init), ts[n], f);
      assert forall k :: 0 <= k < n ==> init[k] == ts[k];
      if Sets(ts[n], f).None? && FilterValue(ParseTokens(init), f).Some? {
        var k :| 0 <= k < n && Sets(init[k], f) == FilterValue(ParseTokens(init), f);
        assert Sets(ts[k], f) == FilterValue(ParseTokens(ts), f);
      }
    }
  }

  /** Last wins: the value of a filter key is the one given by the last token that sets it. */
  lemma {:induction false} LastTokenWins(ts: seq<Token>, f: Field, k: int)
    requires 0 <= k < |ts| && Sets(ts[k], f).Some?
    requires forall j :: k < j < |ts| ==> Sets(ts[j], f).None?
    ensures FilterValue(ParseTokens(ts), f) == Sets(ts[k], f)
  {
    var n := |ts| - 1;
    var init := ts[..n];
    ApplyFilter(ParseTokens(init), ts[n], f);
    if k < n {
      assert forall j :: 0 <= j < n ==> init[j] == ts[j];
      LastTokenWins(init, f, k);
    }
  }

  /** The free terms of a token list, front to back. */
  function FreeTerms(ts: seq<Token>): seq<string> {
    if ts == [] then []
    else (if ts[0].FreeTerm? then [ts[0].term] else []) + FreeTerms(ts[1..])
  }

  lemma {:induction false} FreeTermsAppend(a: seq<Token>, b: seq<Token>)
    ensures FreeTerms(a + b) == FreeTerms(a) + FreeTerms(b)
  {
    if a == [] {
      assert a + b == b;
    } else {
      var head := if a[0].FreeTerm? then [a[0].term] else [];
      assert (a + b)[0] == a[0];
      assert (a + b)[1..] == a[1..] + b;
      FreeTermsAppend(a[1..], b);
      assert FreeTerms(a + b) == head + (FreeTerms(a[1..]) + FreeTerms(b));
      assert head + (FreeTerms(a[1..]) + FreeTerms(b)) == (head + FreeTerms(a[1..])) + FreeTerms(b);
    }
  }

  /** The terms are exactly the free-term tokens, in input order. */
  lemma {:induction false} TermsInInputOrder(ts: seq<Token>)
    ensures ParseTokens(ts).terms == FreeTerms(ts)
  {
    if ts != [] {
      var n := |ts| - 1;
      TermsInInputOrder(ts[..n]);
      FreeTermsAppend(ts[..n], [ts[n]]);
      assert ts[..n] + [ts[n]] == ts;
      assert FreeTerms([ts[n]]) == (if ts[n].FreeTerm? then [ts[n].term] else []);
    }
  }

  /**
   * The catch-all branch: a token that is not a quoted phrase, starts with none
   * of the prefix forms and is not all digits is pushed as a lowercased term.
   */
  lemma OtherTokenIsTerm(w: string)
    requires !QuotedOnOneLine(w) && !IsDigits(w)
    requires !StartsWith(w, "blockchain:") && !StartsWith(w, "chain:") && !StartsWith(w, "type:") && !StartsWith(w, "#")
    ensures TokenOf(w) == FreeTerm(Lower(w))
  {
  }

  /** A lowercase word, such as `cat` or `token`, is a free term, itself. */
  lemma PlainWordIsTerm(w: string)
    requires forall k :: 0 <= k < |w| ==> 'a' <= w[k] <= 'z'
    ensures TokenOf(w) == FreeTerm(w)
  {
    assert !StartsWith(w, "blockchain:") by {
      if |w| >= 11 { assert w[..11][10] == w[10]; }
    }
    assert !StartsWith(w, "chain:") by {
      if |w| >= 6 { assert w[..6][5] == w[5]; }
    }
    assert !StartsWith(w, "type:") by {
      if |w| >= 5 { assert w[..5][4] == w[4]; }
    }
    assert !StartsWith(w, "#") by {
      if |w| >= 1 { assert w[..1][0] == w[0]; }
    }
    assert !IsDigits(w) by {
      if w != [] { assert !IsDigit(w[0]); }
    }
    assert !QuotedOnOneLine(w) by {
      if w != [] { assert w[0] != '"'; }
    }
    OtherTokenIsTerm(w);
    assert Lower(w) == w;
  }

  /** The words `cat` and `token` start like `chain:` and `type:` but are plain terms. */
  lemma PlainWordExamples()
    ensures TokenOf("cat") == FreeTerm("cat") && TokenOf("token") == FreeTerm("token")
  {
    PlainWordIsTerm("cat");
    PlainWordIsTerm("token");
  }

  lemma ExampleChainToken()
    ensures TokenOf("blockchain:Ethereum") == ChainFilter(":ethereum")
  {
    ExampleChainUnquoted();
    BlockchainPrefixKeepsColon("Ethereum");
    EthereumLowered();
  }

  lemma ExampleChainUnquoted()
    ensures StripQuotes("blockchain:Ethereum") == "blockchain:" + "Ethereum"
  {
    var part := "blockchain:Ethereum";
    assert part[0] != '"';
  }

  lemma EthereumLowered()
    ensures ":" + Lower("Ethereum") == ":ethereum"
  {
    var lowered := Lower("Ethereum");
    assert lowered == "ethereum" by {
      forall i | 0 <= i < 8 ensures lowered[i] == "ethereum"[i] {
      }
    }
  }

  lemma ExampleIdToken()
    ensures TokenOf("#42") == TokenIdFilter("42")
  {
    assert StripQuotes("#42") == "#42";
    TokenIdForms("42");
    assert "#42" == "#" + "42";
  }

  lemma ClassifyExample()
    ensures Classified(["blockchain:Ethereum", "#42", "bored", "ape"])
         == [ChainFilter(":ethereum"), TokenIdFilter("42"), FreeTerm("bored"), FreeTerm("ape")]
  {
    var parts := ["blockchain:Ethereum", "#42", "bored", "ape"];
    ExampleChainToken();
    ExampleIdToken();
    ExampleTermTokens();
    assert TokenOf(parts[0]) == ChainFilter(":ethereum") && TokenOf(parts[1]) == TokenIdFilter("42");
    assert TokenOf(parts[2]) == FreeTerm("bored") && TokenOf(parts[3]) == FreeTerm("ape");
  }

  lemma ExampleTermTokens()
    ensures TokenOf("bored") == FreeTerm("bored") && TokenOf("ape") == FreeTerm("ape")
  {
    PlainWordIsTerm("bored");
    PlainWordIsTerm("ape");
  }

  /** A query of bare words separated by single spaces parses word by word. */
  lemma ParseWords(words: seq<string>)
    requires forall w :: w in words ==> IsBareWord(w)
    ensures ParseQuery(Join(words, " ")) == ParseTokens(Classified(words))
  {
    TokenizeJoin(words);
  }

  /** The query `blockchain:Ethereum #42 bored ape`: two terms, the chain with its colon, the token id. */
  lemma ParseExampleQuery()
    ensures ParseQuery(Join(["blockchain:Ethereum", "#42", "bored", "ape"], " "))
         == ParsedQuery(["bored", "ape"], Some(":ethereum"), None, Some("42"))
  {
    ExampleWordsAreBare();
    ParseWords(["blockchain:Ethereum", "#42", "bored", "ape"]);
    ParseExample();
  }

  lemma ExampleWordsAreBare()
    ensures forall w :: w in ["blockchain:Ethereum", "#42", "bored", "ape"] ==> IsBareWord(w)
  {
    assert IsBareWord("blockchain:Ethereum") && IsBareWord("#42");
    assert IsBareWord("bored") && IsBareWord("ape");
  }

  /** A query mixing a chain filter, a token id and two words, token by token; the chain keeps its colon. */
  lemma ParseExample()
    ensures ParseTokens(Classified(["blockchain:Ethereum", "#42", "bored", "ape"]))
         == ParsedQuery(["bored", "ape"], Some(":ethereum"), None, Some("42"))
  {
    ClassifyExample();
    var ts := [ChainFilter(":ethereum"), TokenIdFilter("42"), FreeTerm("bored"), FreeTerm("ape")];
    ParseOneToken(ts[0]);
    assert ts[..3][..2][..1] == [ts[0]];
  }

  // ---------------------------------------------------------------------------
  // The predicate filter: `filterNFTs`
  // ---------------------------------------------------------------------------

  const ImageKeywords: seq<string> := ["image", "img", "jpeg", "jpg", "png", "gif", "webp"]
  const VideoKeywords: seq<string> := ["video", "mp4", "avi", "mov", "webm"]

  /** Some keyword occurs in the lowercased image URL or the lowercased name. */
  predicate MentionsAny(nft: NFT, keywords: seq<string>) {
    exists i :: 0 <= i < |keywords| &&
      (Contains(Lower(nft.image), keywords[i]) || Contains(Lower(nft.name), keywords[i]))
  }

  predicate ChainClause(nft: NFT, q: ParsedQuery) {
    Truthy(q.blockchain) ==> Lower(nft.chain) == q.blockchain.value
  }

  /** Only `image` and `video` constrain; any other non-empty file type passes every asset. */
  predicate FileTypeClause(nft: NFT, q: ParsedQuery) {
    Truthy(q.fileType) ==>
      && (q.fileType.value == "image" ==> MentionsAny(nft, ImageKeywords))
      && (q.fileType.value == "video" ==> MentionsAny(nft, VideoKeywords))
  }

  predicate TokenIdClause(nft: NFT, q: ParsedQuery) {
    Truthy(q.tokenId) ==>
      Contains(nft.id, q.tokenId.value) || Contains(Lower(nft.name), "#" + q.tokenId.value)
  }

  function AttributeTexts(attrs: seq<Attribute>): seq<string> {
    seq(|attrs|, i requires 0 <= i < |attrs| => attrs[i].traitType + " " + attrs[i].value)
  }

  /** The lowercased, space-joined name, collection, description, chain and attribute texts. */
  function SearchableText(nft: NFT): string {
    Lower(Join([nft.name, nft.collection, nft.description, nft.chain] + AttributeTexts(nft.attributes), " "))
  }

  predicate TermsClause(nft: NFT, q: ParsedQuery) {
    forall t :: t in q.terms ==> Contains(SearchableText(nft), t)
  }

  predicate Matches(nft: NFT, q: ParsedQuery) {
    ChainClause(nft, q) && FileTypeClause(nft, q) && TokenIdClause(nft, q) && TermsClause(nft, q)
  }

  /** `a` is `b` with some elements left out, in the same order. */
  predicate IsSubsequence<T(==)>(a: seq<T>, b: seq<T>)
    decreases |b|
  {
    if a == [] then true
    else if b == [] then false
    else (a[0] == b[0] && IsSubsequence(a[1..], b[1..])) || IsSubsequence(a, b[1..])
  }

  lemma {:induction false} SubsequenceOfItself<T>(s: seq<T>)
    ensures IsSubsequence(s, s)
  {
    if s != [] {
      SubsequenceOfItself(s[1..]);
    }
  }

  /** `nfts.filter(...)`: the matching assets, in catalogue order. */
  function Keep(nfts: seq<NFT>, q: ParsedQuery): (r: seq<NFT>)
    ensures IsSubsequence(r, nfts)
    ensures forall x :: x in r <==> x in nfts && Matches(x, q)
  {
    if nfts == [] then []
    else if Matches(nfts[0], q) then
      var rest := Keep(nfts[1..], q);
      assert ([nfts[0]] + rest)[1..] == rest;
      [nfts[0]] + rest
    else Keep(nfts[1..], q)
  }

  lemma {:induction false} KeepAllMatching(nfts: seq<NFT>, q: ParsedQuery)
    requires forall x :: x in nfts ==> Matches(x, q)
    ensures Keep(nfts, q) == nfts
  {
    if nfts != [] {
      KeepAllMatching(nfts[1..], q);
    }
  }

  /** Every copy of a matching asset is kept and every copy of another is dropped. */
  lemma {:induction false} KeepCounts(nfts: seq<NFT>, q: ParsedQuery)
    ensures forall x :: multiset(Keep(nfts, q))[x] == if Matches(x, q) then multiset(nfts)[x] else 0
  {
    if nfts != [] {
      KeepCounts(nfts[1..], q);
      assert nfts == [nfts[0]] + nfts[1..];
      assert multiset(nfts) == multiset{nfts[0]} + multiset(nfts[1..]);
    }
  }

  /**
   * `filterNFTs`: a blank query returns the list unchanged; otherwise the result
   * is the order-preserving sublist of the assets that match the parsed query.
   * The guard `!query.trim()` is written as `IsBlank(query)`, which it equals
   * by `TrimEmptyIffBlank`.
   */
  function FilterNFTs(nfts: seq<NFT>, query: string): (r: seq<NFT>)
    ensures IsBlank(query) ==> r == nfts
    ensures IsSubsequence(r, nfts)
    ensures !IsBlank(query) ==> forall x :: x in r <==> x in nfts && Matches(x, ParseQuery(query))
  {
    SubsequenceOfItself(nfts);
    if IsBlank(query) then nfts else Keep(nfts, ParseQuery(query))
  }

  /** The filter keeps as many copies of a matching asset as the catalogue holds, and none of the others. */
  lemma FilterCounts(nfts: seq<NFT>, query: string)
    ensures !IsBlank(query) ==>
      forall x :: multiset(FilterNFTs(nfts, query))[x] == if Matches(x, ParseQuery(query)) then multiset(nfts)[x] else 0
  {
    KeepCounts(nfts, ParseQuery(query));
  }

  // ---------------------------------------------------------------------------
  // What single-token queries select
  // ---------------------------------------------------------------------------

  /** No whitespace at all, so the `\S+` alternative takes the whole text as one part. */
  predicate HasNoSpace(x: string) {
    forall k :: 0 <= k < |x| ==> !IsSpace(x[k])
  }

  lemma PlainQuery(prefix: string, x: string)
    requires prefix != [] && prefix[0] != '"' && HasNoSpace(prefix) && HasNoSpace(x)
    ensures Tokenize(prefix + x) == [prefix + x] && StripQuotes(prefix + x) == prefix + x
    ensures !IsBlank(prefix + x)
  {
    var s := prefix + x;
    assert forall k :: 0 <= k < |s| ==> !IsSpace(s[k]) by {
      forall k | 0 <= k < |s| ensures !IsSpace(s[k]) {
        if k >= |prefix| { assert s[k] == x[k - |prefix|]; }
      }
    }
    SingleRunIsOneToken(s);
  }

  /** A query that is one token parses to that token applied to the empty query. */
  lemma SingleTokenQuery(s: string)
    requires Tokenize(s) == [s]
    ensures ParseQuery(s) == Apply(EmptyQuery, TokenOf(s))
  {
    assert Classified([s]) == [TokenOf(s)];
    ParseOneToken(TokenOf(s));
  }

  /** A non-blank query keeps exactly the assets that match what it parses to. */
  lemma SelectsByMatches(nfts: seq<NFT>, query: string, q: ParsedQuery)
    requires !IsBlank(query) && ParseQuery(query) == q
    ensures forall n :: n in FilterNFTs(nfts, query) <==> n in nfts && Matches(n, q)
  {
  }

  /** `chain:X` keeps exactly the assets whose lowercased chain is the lowercased X. */
  lemma ChainQuerySelects(nfts: seq<NFT>, x: string)
    requires HasNoSpace(x)
    ensures forall n :: n in FilterNFTs(nfts, "chain:" + x) <==>
      n in nfts && (Lower(x) != "" ==> Lower(n.chain) == Lower(x))
  {
    var query := "chain:" + x;
    PlainQuery("chain:", x);
    ChainPrefix(x);
    SingleTokenQuery(query);
    var q := ParsedQuery([], Some(Lower(x)), None, None);
    assert ParseQuery(query) == q;
    SelectsByMatches(nfts, query, q);
  }

  /**
   * `blockchain:X` stores `":" + lower(X)`, so it keeps only assets whose lowercased
   * chain starts with a colon; an asset whose chain is X itself is always dropped.
   */
  lemma BlockchainQueryKeepsColon(nfts: seq<NFT>, x: string)
    requires HasNoSpace(x)
    ensures forall n :: n in FilterNFTs(nfts, "blockchain:" + x) <==>
      n in nfts && Lower(n.chain) == ":" + Lower(x)
    ensures forall n :: n in nfts && Lower(n.chain) == Lower(x) ==> n !in FilterNFTs(nfts, "blockchain:" + x)
  {
    var query := "blockchain:" + x;
    PlainQuery("blockchain:", x);
    BlockchainPrefixKeepsColon(x);
    SingleTokenQuery(query);
    var q := ParsedQuery([], Some(":" + Lower(x)), None, None);
    assert ParseQuery(query) == q;
    SelectsByMatches(nfts, query, q);
    assert |":" + Lower(x)| != |Lower(x)|;
  }
  /** The search bar's chip `blockchain:ethereum` selects no asset whose chain is `ethereum`. */
  lemma EthereumChipKeepsNoEthereumAsset(nfts: seq<NFT>)
    ensures forall n :: n in nfts && Lower(n.chain) == "ethereum" ==> n !in FilterNFTs(nfts, "blockchain:ethereum")
  {
    var x := "ethereum";
    assert HasNoSpace(x);
    assert "blockchain:" + x == "blockchain:ethereum";
    assert Lower(x) == x by {
      forall i | 0 <= i < |x| ensures Lower(x)[i] == x[i] {
      }
    }
    BlockchainQueryKeepsColon(nfts, x);
  }


  /** A `type:` value other than `image` or `video` filters nothing out. */
  lemma UnknownTypeKeepsAll(nfts: seq<NFT>, x: string)
    requires HasNoSpace(x) && Lower(x) != "image" && Lower(x) != "video"
    ensures FilterNFTs(nfts, "type:" + x) == nfts
  {
    var query := "type:" + x;
    PlainQuery("type:", x);
    TypePrefix(x);
    SingleTokenQuery(query);
    var q := ParsedQuery([], None, Some(Lower(x)), None);
    assert ParseQuery(query) == q;
    KeepAllMatching(nfts, q);
  }

  /** `type:image`, in any letter case, keeps exactly the assets with an image keyword in their image URL or name. */
  lemma ImageTypeQuerySelects(nfts: seq<NFT>, x: string)
    requires Lower(x) == "image"
    ensures forall n :: n in FilterNFTs(nfts, "type:" + x) <==> n in nfts && MentionsAny(n, ImageKeywords)
  {
    TypeQueryParses(x);
    SelectsByMatches(nfts, "type:" + x, ParsedQuery([], None, Some("image"), None));
  }

  /** `type:video`, in any letter case, keeps exactly the assets with a video keyword in their image URL or name. */
  lemma VideoTypeQuerySelects(nfts: seq<NFT>, x: string)
    requires Lower(x) == "video"
    ensures forall n :: n in FilterNFTs(nfts, "type:" + x) <==> n in nfts && MentionsAny(n, VideoKeywords)
  {
    TypeQueryParses(x);
    SelectsByMatches(nfts, "type:" + x, ParsedQuery([], None, Some("video"), None));
  }

  /** A `type:` query whose value lowercases to `image` or `video` parses to that file-type filter alone. */
  lemma TypeQueryParses(x: string)
    requires Lower(x) == "image" || Lower(x) == "video"
    ensures !IsBlank("type:" + x) && ParseQuery("type:" + x) == ParsedQuery([], None, Some(Lower(x)), None)
  {
    assert HasNoSpace(x) by {
      forall k | 0 <= k < |x| ensures !IsSpace(x[k]) {
        assert Lower(x)[k] == LowerChar(x[k]);
      }
    }
    PlainQuery("type:", x);
    TypePrefix(x);
    SingleTokenQuery("type:" + x);
  }

  /** An asset whose image URL mentions `mp4` is kept by `type:video`. */
  lemma VideoQueryKeepsMp4(nfts: seq<NFT>)
    ensures forall n :: n in nfts && Contains(Lower(n.image), "mp4") ==> n in FilterNFTs(nfts, "type:video")
  {
    var x := "video";
    assert Lower(x) == x by {
      forall i | 0 <= i < |x| ensures Lower(x)[i] == x[i] {
      }
    }
    assert "type:" + x == "type:video";
    VideoTypeQuerySelects(nfts, x);
    forall n | n in nfts && Contains(Lower(n.image), "mp4") ensures MentionsAny(n, VideoKeywords) {
      assert VideoKeywords[1] == "mp4";
    }
  }

  /** A bare number keeps the assets whose id contains it or whose name contains `#` and it. */
  lemma DigitsQuerySelects(nfts: seq<NFT>, d: string)
    requires IsDigits(d)
    ensures forall n :: n in FilterNFTs(nfts, d) <==>
      n in nfts && (Contains(n.id, d) || Contains(Lower(n.name), "#" + d))
  {
    forall k | 0 <= k < |d| ensures !IsSpace(d[k]) {
      assert IsDigit(d[k]);
    }
    SingleRunIsOneToken(d);
    assert StripQuotes(d) == d by {
      assert d[0] != '"';
    }
    TokenIdForms(d);
    SingleTokenQuery(d);
    var q := ParsedQuery([], None, None, Some(d));
    assert ParseQuery(d) == q;
    assert !IsBlank(d) by {
      assert !IsSpace(d[0]);
    }
    SelectsByMatches(nfts, d, q);
  }

  /** Every asset a query keeps contains each of the query's free terms in its searchable text. */
  lemma KeptAssetsContainTerms(nfts: seq<NFT>, query: string, n: NFT)
    requires !IsBlank(query) && n in FilterNFTs(nfts, query)
    ensures forall t :: t in FreeTerms(Classified(Tokenize(query))) ==> Contains(SearchableText(n), t)
  {
    TermsInInputOrder(Classified(Tokenize(query)));
  }
}
