/**
 * The chat front-end: which handlers a message fires, how the `/strategy`
 * argument is parsed and checked, and the replies and operation requests each
 * handler produces. Replies are appended to `Bot.sent` and requests to the
 * operations to `Bot.requests`; what each operation settles to is a parameter.
 */
module TelegramBot {
  import opened Outcomes
  import opened JsString
  import TradingStrategy
  import FinancialNewsFlow
  import MarketPulseFlow

  // ---------------------------------------------------------------------------
  // Routing a message to handlers

  /** The text handlers, in the order `startTelegramBot` registers them. */
  datatype Command = Start | Help | Pulse | News | StrategyHelp | Strategy

  /**
   * The literal part of each handler's regular expression. None is anchored;
   * `/pulse` and `/strategy` continue with ` (.+)`, the others with nothing.
   */
  function Pattern(c: Command): string
  {
    match c
    case Start => "/start"
    case Help => "/help"
    case Pulse => "/pulse "
    case News => "/news"
    case StrategyHelp => "/strategyhelp"
    case Strategy => "/strategy "
  }

  predicate TakesArgument(c: Command)
  {
    c == Pulse || c == Strategy
  }

  /** `prefix` at `p`, followed by at least one character `.` matches. */
  predicate ArgumentAt(text: string, prefix: string, p: int)
  {
    OccursAt(text, prefix, p) && p + |prefix| < |text| && !IsLineTerminator(text[p + |prefix|])
  }

  /** The longest prefix of `s` holding no line terminator: what greedy `.+` takes. */
  function LineRest(s: string): (r: string)
    ensures |r| <= |s| && forall k :: 0 <= k < |r| ==> r[k] == s[k]
    ensures forall k :: 0 <= k < |r| ==> !IsLineTerminator(r[k])
    ensures |r| < |s| ==> IsLineTerminator(s[|r|])
  {
    if |s| > 0 && !IsLineTerminator(s[0]) then [s[0]] + LineRest(s[1..]) else []
  }

  /** The leftmost position from `from` on where the argument pattern matches, or -1. */
  function FirstArgumentAt(text: string, prefix: string, from: nat): (p: int)
    ensures p == -1 <==> forall q :: from <= q ==> !ArgumentAt(text, prefix, q)
    ensures p != -1 ==> from <= p && ArgumentAt(text, prefix, p)
    ensures p != -1 ==> forall q :: from <= q < p ==> !ArgumentAt(text, prefix, q)
    decreases |text| - from
  {
    if ArgumentAt(text, prefix, from) then from
    else if from >= |text| then -1
    else FirstArgumentAt(text, prefix, from + 1)
  }

  /**
   * `match?.[1]` for the regular expression `prefix` then `(.+)`: the capture
   * runs from the leftmost match to the end of that line, and is never empty.
   */
  function ArgumentMatch(text: string, prefix: string): (r: Option<string>)
    ensures r.None? <==> forall p :: !ArgumentAt(text, prefix, p)
    ensures r.Some? ==> exists p :: LeftmostArgumentAt(text, prefix, p) && r.value == LineRest(text[p + |prefix|..])
    ensures r.Some? ==> |r.value| >= 1
    ensures r.Some? ==> forall k :: 0 <= k < |r.value| ==> !IsLineTerminator(r.value[k])
  {
    var p := FirstArgumentAt(text, prefix, 0);
    if p == -1 then None
    else
      var arg := LineRest(text[p + |prefix|..]);
      assert text[p + |prefix|..][0] == text[p + |prefix|];
      assert LeftmostArgumentAt(text, prefix, p);
      Some(arg)
  }

  /** The pattern matches at `p` and nowhere before it: where the regular expression's match starts. */
  predicate LeftmostArgumentAt(text: string, prefix: string, p: int)
  {
    ArgumentAt(text, prefix, p) && forall q :: 0 <= q < p ==> !ArgumentAt(text, prefix, q)
  }

  /**
   * A message that starts with the command and its space captures the whole
   * rest of the message, when that rest is one non-empty line.
   */
  lemma CommandArgument(prefix: string, t: string)
    requires t != [] && forall k :: 0 <= k < |t| ==> !IsLineTerminator(t[k])
    ensures ArgumentMatch(prefix + t, prefix) == Some(t)
  {
    var text := prefix + t;
    assert text[..|prefix|] == prefix;
    assert text[0..0 + |prefix|] == prefix;
    assert text[|prefix|] == t[0];
    assert ArgumentAt(text, prefix, 0);
    assert FirstArgumentAt(text, prefix, 0) == 0;
    assert text[|prefix|..] == t;
    WholeLine(t);
  }

  /** A text without a line terminator is one line: `.+` takes all of it. */
  lemma {:induction false} WholeLine(s: string)
    requires forall k :: 0 <= k < |s| ==> !IsLineTerminator(s[k])
    ensures LineRest(s) == s
  {
    if s != [] {
      WholeLine(s[1..]);
    }
  }

  /** Whether the handler's regular expression matches the message text. */
  predicate Fires(c: Command, text: string)
  {
    if TakesArgument(c) then ArgumentMatch(text, Pattern(c)).Some? else Includes(text, Pattern(c))
  }

  /** The handlers in the order `startTelegramBot` registers them. */
  const Registered: seq<Command> := [Start, Help, Pulse, News, StrategyHelp, Strategy]

  /** A handler's place in the registration order. */
  function Rank(c: Command): nat
  {
    match c
    case Start => 0
    case Help => 1
    case Pulse => 2
    case News => 3
    case StrategyHelp => 4
    case Strategy => 5
  }

  predicate InRegistrationOrder(cmds: seq<Command>)
  {
    forall i, j :: 0 <= i < j < |cmds| ==> Rank(cmds[i]) < Rank(cmds[j])
  }

  /** The handlers among `cmds` that fire, keeping their order. */
  function FiredAmong(cmds: seq<Command>, text: string): (handlers: seq<Command>)
    ensures forall c :: c in handlers <==> c in cmds && Fires(c, text)
    ensures handlers == [] <==> forall c :: c in cmds ==> !Fires(c, text)
  {
    if cmds == [] then []
    else if Fires(cmds[0], text) then [cmds[0]] + FiredAmong(cmds[1..], text)
    else FiredAmong(cmds[1..], text)
  }

  /** Filtering keeps the registration order. */
  lemma {:induction false} FiredAmongInOrder(cmds: seq<Command>, text: string)
    requires InRegistrationOrder(cmds)
    ensures InRegistrationOrder(FiredAmong(cmds, text))
  {
    if cmds != [] {
      var rest := FiredAmong(cmds[1..], text);
      assert InRegistrationOrder(cmds[1..]);
      FiredAmongInOrder(cmds[1..], text);
      forall c | c in rest ensures Rank(cmds[0]) < Rank(c) {
        var j :| 0 <= j < |cmds[1..]| && cmds[1..][j] == c;
        assert cmds[j + 1] == c;
      }
      if Fires(cmds[0], text) {
        InOrderCons(cmds[0], rest);
      }
    }
  }

  /** A handler ranked before all of an ordered list may go in front of it. */
  lemma InOrderCons(c: Command, rest: seq<Command>)
    requires InRegistrationOrder(rest)
    requires forall x :: x in rest ==> Rank(c) < Rank(x)
    ensures InRegistrationOrder([c] + rest)
  {
    var s := [c] + rest;
    forall i, j | 0 <= i < j < |s| ensures Rank(s[i]) < Rank(s[j]) {
      assert s[j] == rest[j - 1];
      if i > 0 {
        assert s[i] == rest[i - 1];
      } else {
        assert rest[j - 1] in rest;
      }
    }
  }

  /**
   * The handlers one message fires: exactly those whose regular expression
   * matches, each once, in registration order.
   */
  function Fired(text: string): (handlers: seq<Command>)
    ensures forall c :: c in handlers <==> Fires(c, text)
    ensures handlers == [] <==> forall c :: !Fires(c, text)
    ensures InRegistrationOrder(handlers)
  {
    assert forall c: Command :: c in Registered by {
      forall c: Command ensures c in Registered {
        assert Registered[Rank(c)] == c;
      }
    }
    FiredAmongInOrder(Registered, text);
    FiredAmong(Registered, text)
  }

  /** Every pattern begins with `/`, so text without one fires no handler. */
  lemma PlainTextFiresNothing(text: string)
    requires '/' !in text
    ensures Fired(text) == []
  {
    NoSlashNoMatch(text);
  }

  lemma NoSlashNoMatch(text: string)
    requires '/' !in text
    ensures forall c :: !Fires(c, text)
  {
    forall c: Command ensures !Fires(c, text) {
      MissingCharacter(text, Pattern(c), 0);
    }
  }

  /**
   * A handler fires wherever its pattern occurs, not only at the start of the
   * message: a command quoted inside other text fires.
   */
  lemma UnanchoredCommand(before: string, after: string)
    ensures Help in Fired(before + "/help" + after)
  {
    var text := before + "/help" + after;
    assert text[|before|..|before| + 5] == "/help";
    assert OccursAt(text, "/help", |before|);
  }

  /** The argument handlers need a space and one more character after the name. */
  lemma BareArgumentCommands()
    ensures Pulse !in Fired("/pulse")
    ensures Strategy !in Fired("/strategy")
    ensures Strategy !in Fired("/strategyhelp")
  {
    SpacelessText("/pulse");
    SpacelessText("/strategy");
    SpacelessText("/strategyhelp");
  }

  /** Text without a space fires neither argument handler: both patterns end in a space. */
  lemma SpacelessText(text: string)
    requires ' ' !in text
    ensures !Fires(Pulse, text) && !Fires(Strategy, text)
  {
    MissingCharacter(text, Pattern(Pulse), 6);
    MissingCharacter(text, Pattern(Strategy), 9);
  }

  /** A pattern holding a character the text lacks occurs nowhere in it. */
  lemma MissingCharacter(text: string, pat: string, k: nat)
    requires k < |pat| && pat[k] !in text
    ensures forall p :: !OccursAt(text, pat, p)
  {
    forall p ensures !OccursAt(text, pat, p) {
      if 0 <= p && p + |pat| <= |text| {
        assert text[p..p + |pat|][k] == text[p + k];
        assert text[p + k] in text;
      }
    }
  }

  // ---------------------------------------------------------------------------
  // The /strategy argument

  const TechnicalPlaceholder := "User is on Telegram, provide general indicators."
  const MacroPlaceholder := "User is on Telegram, provide general factors."

  /** How the `/strategy` handler disposes of its argument. */
  datatype StrategyParse = Parsed(input: TradingStrategy.StrategyInput) | InvalidFormat | InvalidVocabulary

  /** `.map(arg => arg.trim())`: each piece trimmed, in order. */
  function TrimAll(pieces: seq<string>): (fields: seq<string>)
    ensures |fields| == |pieces|
    ensures forall k :: 0 <= k < |fields| ==> fields[k] == Trim(pieces[k])
  {
    if pieces == [] then [] else [Trim(pieces[0])] + TrimAll(pieces[1..])
  }

  /** `fullArgs.split(';').map(arg => arg.trim())`. */
  function StrategyFields(fullArgs: string): seq<string>
  {
    TrimAll(Split(fullArgs, ';'))
  }

  /**
   * The checks of the `/strategy` handler on the trimmed fields: the first
   * three must be present and non-empty, then the first two must be in the
   * vocabularies. Fields after the third are never read.
   */
  function ParseFields(f: seq<string>): (r: StrategyParse)
    ensures r == InvalidFormat <==> (|f| < 3 || f[0] == "" || f[1] == "" || f[2] == "")
    ensures r == InvalidVocabulary <==>
      (|f| >= 3 && f[0] != "" && f[1] != "" && f[2] != ""
       && (f[0] !in TradingStrategy.AssetTypes || f[1] !in TradingStrategy.RiskAppetites))
    ensures r.Parsed? ==> r.input == TradingStrategy.StrategyInput(f[2], TechnicalPlaceholder, MacroPlaceholder, f[0], f[1])
    ensures r.Parsed? ==> TradingStrategy.ValidInput(r.input)
  {
    if |f| < 3 || f[0] == "" || f[1] == "" || f[2] == "" then
      InvalidFormat
    else
      var assetType, riskAppetite, marketData := f[0], f[1], f[2];
      if assetType !in TradingStrategy.AssetTypes || riskAppetite !in TradingStrategy.RiskAppetites then
        InvalidVocabulary
      else
        Parsed(TradingStrategy.StrategyInput(marketData, TechnicalPlaceholder, MacroPlaceholder, assetType, riskAppetite))
  }

  /** The whole `/strategy` argument check: split, trim, then the field checks. */
  function ParseStrategyArgs(fullArgs: string): (r: StrategyParse)
    ensures r == ParseFields(StrategyFields(fullArgs))
    ensures r.Parsed? ==> TradingStrategy.ValidInput(r.input)
  {
    ParseFields(StrategyFields(fullArgs))
  }

  /** A word of lower-case ASCII letters only. */
  predicate LowerWord(w: string)
  {
    forall k :: 0 <= k < |w| ==> 'a' <= w[k] <= 'z'
  }

  /** The words of the two vocabularies are lower-case words. */
  lemma VocabularyLower(w: string)
    requires w in TradingStrategy.AssetTypes || w in TradingStrategy.RiskAppetites
    ensures LowerWord(w) && w != []
  {
  }

  /** A lower-case word has no separator and nothing to trim. */
  lemma LowerWordClean(w: string)
    requires LowerWord(w)
    ensures ';' !in w
    ensures Trim(w) == w
  {
    assert w != [] ==> 'a' <= w[0] <= 'z' && 'a' <= w[|w| - 1] <= 'z';
    TrimTrimmed(w);
  }

  /** No word of the two vocabularies contains a separator or white space at its ends. */
  lemma VocabularyWords(w: string)
    requires w in TradingStrategy.AssetTypes || w in TradingStrategy.RiskAppetites
    ensures ';' !in w
    ensures Trim(w) == w
  {
    VocabularyLower(w);
    LowerWordClean(w);
  }

  /** Three separator-free texts joined by `;` split back into those three. */
  lemma ThreePieces(a: string, b: string, c: string)
    requires ';' !in a && ';' !in b && ';' !in c
    ensures Split(a + ";" + b + ";" + c, ';') == [a, b, c]
  {
    assert a + ";" + b + ";" + c == a + [';'] + (b + [';'] + c);
    SplitFirstPiece(a, ';', b + [';'] + c);
    SplitFirstPiece(b, ';', c);
    SplitNoSeparator(c, ';');
  }

  /** Three fields with nothing to trim are unchanged by the trimming. */
  lemma ThreeUntrimmed(a: string, b: string, c: string)
    requires Trim(a) == a && Trim(b) == b && Trim(c) == c
    ensures TrimAll([a, b, c]) == [a, b, c]
  {
    var fields := TrimAll([a, b, c]);
    assert fields[0] == a && fields[1] == b && fields[2] == c;
  }

  /**
   * A well-formed command argument `a;b;c` parses into the request with
   * those three fields in order and the two placeholders.
   */
  lemma StrategyRoundTrip(a: string, b: string, c: string)
    requires a in TradingStrategy.AssetTypes && b in TradingStrategy.RiskAppetites
    requires c != [] && ';' !in c && !IsWhiteSpace(c[0]) && !IsWhiteSpace(c[|c| - 1])
    ensures ParseStrategyArgs(a + ";" + b + ";" + c)
      == Parsed(TradingStrategy.StrategyInput(c, TechnicalPlaceholder, MacroPlaceholder, a, b))
  {
    VocabularyWords(a);
    VocabularyWords(b);
    TrimTrimmed(c);
    ThreeFields(a, b, c);
    VocabularyFields(a, b, c);
  }

  /** Two vocabulary words and a non-empty market text pass the field checks. */
  lemma VocabularyFields(a: string, b: string, c: string)
    requires a in TradingStrategy.AssetTypes && b in TradingStrategy.RiskAppetites && c != []
    ensures ParseFields([a, b, c])
      == Parsed(TradingStrategy.StrategyInput(c, TechnicalPlaceholder, MacroPlaceholder, a, b))
  {
    var f := [a, b, c];
    assert f[0] == a && f[1] == b && f[2] == c && a != [] && b != [];
  }

  /** Three separator-free fields with nothing to trim reach the field checks unchanged. */
  lemma ThreeFields(a: string, b: string, c: string)
    requires ';' !in a && ';' !in b && ';' !in c
    requires Trim(a) == a && Trim(b) == b && Trim(c) == c
    ensures ParseStrategyArgs(a + ";" + b + ";" + c) == ParseFields([a, b, c])
  {
    ThreePieces(a, b, c);
    ThreeUntrimmed(a, b, c);
  }

  /**
   * Once the argument has three fields, anything after a further `;` is
   * dropped, including a `;` that belongs to the market text.
   */
  lemma ExtraFieldsDropped(x: string, tail: string)
    requires |Split(x, ';')| >= 3
    ensures ParseStrategyArgs(x + ";" + tail) == ParseStrategyArgs(x)
  {
    var pieces, more := Split(x, ';'), Split(tail, ';');
    assert x + ";" + tail == x + [';'] + tail;
    SplitAppend(x, ';', tail);
    TrimAllAppend(pieces, more);
    FirstThreeFields(TrimAll(pieces), TrimAll(more));
  }

  /** Trimming works piece by piece, so it distributes over concatenation. */
  lemma {:induction false} TrimAllAppend(p: seq<string>, q: seq<string>)
    ensures TrimAll(p + q) == TrimAll(p) + TrimAll(q)
  {
    if p != [] {
      assert (p + q)[1..] == p[1..] + q;
      TrimAllAppend(p[1..], q);
      AppendAssociative([Trim(p[0])], TrimAll(p[1..]), TrimAll(q));
    }
  }

  /** Only the first three fields decide the outcome: more fields change nothing. */
  lemma FirstThreeFields(f: seq<string>, g: seq<string>)
    requires |f| >= 3
    ensures ParseFields(f + g) == ParseFields(f)
  {
    var fg := f + g;
    assert fg[0] == f[0] && fg[1] == f[1] && fg[2] == f[2];
  }

  /**
   * A `;` inside the market text ends it: `a;b;c;rest` is handled as `a;b;c`,
   * whatever `rest` holds.
   */
  lemma SemicolonInMarketText(a: string, b: string, c: string, rest: string)
    requires a in TradingStrategy.AssetTypes && b in TradingStrategy.RiskAppetites
    requires c != [] && ';' !in c && !IsWhiteSpace(c[0]) && !IsWhiteSpace(c[|c| - 1])
    ensures ParseStrategyArgs(a + ";" + b + ";" + c + ";" + rest)
      == Parsed(TradingStrategy.StrategyInput(c, TechnicalPlaceholder, MacroPlaceholder, a, b))
  {
    VocabularyWords(a);
    VocabularyWords(b);
    ThreePieces(a, b, c);
    StrategyRoundTrip(a, b, c);
    ExtraFieldsDropped(a + ";" + b + ";" + c, rest);
  }

  /**
   * End to end: the message `/strategy a;b;c`, with `c` on one line, captures
   * `a;b;c` and parses into the request with those fields in order.
   */
  lemma StrategyMessage(a: string, b: string, c: string)
    requires a in TradingStrategy.AssetTypes && b in TradingStrategy.RiskAppetites
    requires c != [] && ';' !in c && !IsWhiteSpace(c[0]) && !IsWhiteSpace(c[|c| - 1])
    requires forall k :: 0 <= k < |c| ==> !IsLineTerminator(c[k])
    ensures ArgumentMatch("/strategy " + a + ";" + b + ";" + c, Pattern(Strategy)) == Some(a + ";" + b + ";" + c)
    ensures ParseStrategyArgs(ArgumentMatch("/strategy " + a + ";" + b + ";" + c, Pattern(Strategy)).value)
      == Parsed(TradingStrategy.StrategyInput(c, TechnicalPlaceholder, MacroPlaceholder, a, b))
  {
    var t := a + ";" + b + ";" + c;
    VocabularyLower(a);
    VocabularyLower(b);
    forall k | 0 <= k < |t|
      ensures !IsLineTerminator(t[k])
    {
      if k < |a| {
        assert t[k] == a[k];
      } else if k == |a| || k == |a| + 1 + |b| {
        assert t[k] == ';';
      } else if k < |a| + 1 + |b| {
        assert t[k] == b[k - |a| - 1];
      } else {
        assert t[k] == c[k - |a| - |b| - 2];
      }
    }
    assert "/strategy " + a + ";" + b + ";" + c == Pattern(Strategy) + t;
    CommandArgument(Pattern(Strategy), t);
    StrategyRoundTrip(a, b, c);
  }

  /** A word with its first letter in upper case. */
  function Capitalized(w: string): (r: string)
    requires w != []
    ensures |r| == |w| && r[0] == UpperChar(w[0]) && r[1..] == w[1..]
  {
    [UpperChar(w[0])] + w[1..]
  }

  /**
   * The vocabulary check is case-sensitive: an asset type written with a
   * capital letter is refused, although it is otherwise well formed.
   */
  lemma CapitalizedAssetRejected(a: string, b: string, c: string)
    requires a in TradingStrategy.AssetTypes && b in TradingStrategy.RiskAppetites
    requires c != [] && ';' !in c && !IsWhiteSpace(c[0]) && !IsWhiteSpace(c[|c| - 1])
    ensures ParseStrategyArgs(Capitalized(a) + ";" + b + ";" + c) == InvalidVocabulary
  {
    VocabularyWords(a);
    VocabularyWords(b);
    TrimTrimmed(c);
    var big := Capitalized(a);
    VocabularyLower(a);
    CapitalizedWord(a);
    forall w | w in TradingStrategy.AssetTypes ensures big != w {
      VocabularyLower(w);
    }
    ThreeFields(big, b, c);
    var f := [big, b, c];
    assert f[0] == big && f[1] == b && f[2] == c && b != [];
  }

  /** A lower-case word capitalised is still trimmed and separator-free, but no longer lower-case. */
  lemma CapitalizedWord(a: string)
    requires LowerWord(a) && a != []
    ensures ';' !in Capitalized(a) && Trim(Capitalized(a)) == Capitalized(a)
    ensures forall w :: LowerWord(w) && w != [] ==> Capitalized(a) != w
  {
    var big := Capitalized(a);
    assert 'A' <= big[0] <= 'Z' && 'a' <= a[|a| - 1] <= 'z';
    assert |a| > 1 ==> big[|big| - 1] == a[|a| - 1];
    assert forall k :: 1 <= k < |big| ==> big[k] == a[k];
    TrimTrimmed(big);
    forall w | LowerWord(w) && w != [] ensures big != w {
      assert 'a' <= w[0] <= 'z';
    }
  }

  // ---------------------------------------------------------------------------
  // Reply texts

  const WelcomeText := "Welcome to Gainezis-Fintrade Bot! I'm here to help you with AI-powered market insights. Try /help to see what I can do."

  const HelpText :=
    "Here are the available commands:\n"
    + "/pulse <topic> - Get a deep sentiment analysis on a financial topic (e.g., /pulse NVIDIA stock).\n"
    + "/news - Fetches the latest 5 financial news headlines.\n"
    + "/strategyhelp - Shows how to use the strategy generation command.\n"
    + "/strategy <asset>;<risk>;<market_data> - Generate a trading strategy.\n"
    + "/help - Show this help message.\n"

  const StrategyHelpText :=
    "\n*How to use the /strategy command:*\n\n"
    + "The command requires 3 parameters separated by a semicolon ';'.\n\n"
    + "*/strategy <assetType>;<riskAppetite>;<marketData>*\n\n"
    + "*Parameters:*\n"
    + "1.  *assetType*: Must be one of `crypto`, `options`, or `forex`.\n"
    + "2.  *riskAppetite*: Must be one of `low`, `medium`, or `high`.\n"
    + "3.  *marketData*: A short text describing the current market situation.\n\n"
    + "*Example:*\n"
    + "`/strategy crypto;high;BTC is showing high volatility and breaking resistance.`\n    "

  const PulseApology := "Sorry, I couldn't complete the analysis. Please try again later."
  const NewsAck := "\U{1F4F0} Fetching the latest financial news..."
  const NewsApology := "Sorry, I couldn't fetch the news. Please try again later."
  const InvalidFormatText := "Invalid format. Please provide all 3 arguments separated by semicolons. Use /strategyhelp for more info."
  const InvalidVocabularyText := "Invalid asset type or risk appetite. Use /strategyhelp for allowed values."
  const StrategyApology := "Sorry, I couldn't generate a strategy at this time."
  const NewsHeader := "*Latest Financial News:*\n\n"

  function PulseAck(topic: string): string
  {
    "\U{1F9E0} Analyzing market pulse for \"" + topic + "\"... This may take a moment."
  }

  function PulseReport(topic: string, analysis: string): string
  {
    "\n*Market Pulse Report: " + topic + "*\n\n*Analysis:*\n" + analysis + "\n      "
  }

  function StrategyAck(input: TradingStrategy.StrategyInput): string
  {
    "\U{1F916} Generating a *" + input.riskAppetite + "* risk strategy for *" + input.assetType + "*..."
  }

  function StrategyReport(output: TradingStrategy.StrategyOutput): string
  {
    "\n*Generated Trading Strategy:*\n\n*Strategy:*\n" + output.strategy
    + "\n\n*Rationale:*\n" + output.rationale
    + "\n\n*Risk Assessment:*\n" + output.riskAssessment + "\n        "
  }

  /** The block the `/news` handler appends for one item. */
  function NewsBlock(item: FinancialNewsFlow.NewsItem): string
  {
    "*" + item.title + "* (" + item.source + ") - _" + item.time + "_\n\n"
  }

  /** The blocks of all items, in response order. */
  function NewsBlocks(items: seq<FinancialNewsFlow.NewsItem>): string
  {
    if |items| == 0 then "" else NewsBlocks(items[..|items| - 1]) + NewsBlock(items[|items| - 1])
  }

  /** The items' blocks follow one another: those of a prefix start the reply. */
  lemma {:induction false} NewsBlocksAppend(a: seq<FinancialNewsFlow.NewsItem>, b: seq<FinancialNewsFlow.NewsItem>)
    ensures NewsBlocks(a + b) == NewsBlocks(a) + NewsBlocks(b)
    decreases |b|
  {
    if |b| == 0 {
      assert a + b == a;
    } else {
      var init, last := b[..|b| - 1], b[|b| - 1];
      assert (a + b)[..|a + b| - 1] == a + init;
      assert (a + b)[|a + b| - 1] == last;
      NewsBlocksAppend(a, init);
      AppendAssociative(NewsBlocks(a), NewsBlocks(init), NewsBlock(last));
    }
  }

  /** Each item's block starts with its title in bold. */
  lemma NewsBlockShowsTitle(item: FinancialNewsFlow.NewsItem)
    ensures NewsBlock(item)[0] == '*'
    ensures NewsBlock(item)[1..1 + |item.title|] == item.title
  {
  }

  /** The `/news` reply: the header, then one block per item, built by appending. */
  method NewsResponse(items: seq<FinancialNewsFlow.NewsItem>) returns (response: string)
    ensures response == NewsHeader + NewsBlocks(items)
  {
    response := NewsHeader;
    var i := 0;
    while i < |items|
      invariant 0 <= i <= |items|
      invariant response == NewsHeader + NewsBlocks(items[..i])
    {
      assert items[..i + 1][..i] == items[..i];
      response := response + NewsBlock(items[i]);
      i := i + 1;
    }
    assert items[..i] == items;
  }

  // ---------------------------------------------------------------------------
  // The bot

  /** A message the bot sends: the chat, the text, and whether it is Markdown. */
  datatype Reply = Reply(chatId: int, text: string, markdown: bool)

  /** An operation the bot asks for. */
  datatype Request =
    | PulseRequest(pulse: MarketPulseFlow.PulseInput)
    | NewsRequest
    | StrategyRequest(strategy: TradingStrategy.StrategyInput)

  /**
   * The running bot. Each handler method runs to completion; `answer` is what
   * the operation it calls settled to.
   */
  class Bot {
    var sent: seq<Reply>
    var requests: seq<Request>

    constructor ()
      ensures sent == [] && requests == []
    {
      sent, requests := [], [];
    }

    /** `/start`: the welcome message. */
    method OnStart(chatId: int)
      modifies this
      ensures sent == old(sent) + [Reply(chatId, WelcomeText, false)]
      ensures requests == old(requests)
    {
      sent := sent + [Reply(chatId, WelcomeText, false)];
    }

    /** `/help`: the command list. */
    method OnHelp(chatId: int)
      modifies this
      ensures sent == old(sent) + [Reply(chatId, HelpText, false)]
      ensures requests == old(requests)
    {
      sent := sent + [Reply(chatId, HelpText, false)];
    }

    /** `/strategyhelp`: the usage of `/strategy`, as Markdown. */
    method OnStrategyHelp(chatId: int)
      modifies this
      ensures sent == old(sent) + [Reply(chatId, StrategyHelpText, true)]
      ensures requests == old(requests)
    {
      sent := sent + [Reply(chatId, StrategyHelpText, true)];
    }

    /**
     * `/pulse <topic>`: an acknowledgement, the analysis is asked for, then
     * the report or the apology. The library calls the handler only when the
     * regular expression matched, so the topic is never empty and the usage
     * reply for a missing topic is never sent.
     */
    method OnPulse(chatId: int, text: string, answer: Call<MarketPulseFlow.PulseOutput>)
      requires ArgumentMatch(text, Pattern(Pulse)).Some?
      modifies this
      ensures var topic := ArgumentMatch(text, Pattern(Pulse)).value;
        && requests == old(requests) + [PulseRequest(MarketPulseFlow.PulseInput(topic))]
        && sent == old(sent) + [Reply(chatId, PulseAck(topic), false)]
             + [if answer.Success? then Reply(chatId, PulseReport(topic, answer.value.analysis), true)
                else Reply(chatId, PulseApology, false)]
    {
      var topic := ArgumentMatch(text, Pattern(Pulse)).value;
      sent := sent + [Reply(chatId, PulseAck(topic), false)];
      requests := requests + [PulseRequest(MarketPulseFlow.PulseInput(topic))];
      if answer.Failure? {
        sent := sent + [Reply(chatId, PulseApology, false)];
        return;
      }
      sent := sent + [Reply(chatId, PulseReport(topic, answer.value.analysis), true)];
    }

    /** `/news`: an acknowledgement, the digest is asked for, then the list or the apology. */
    method OnNews(chatId: int, answer: Call<FinancialNewsFlow.NewsOutput>)
      modifies this
      ensures requests == old(requests) + [NewsRequest]
      ensures sent == old(sent) + [Reply(chatId, NewsAck, false)]
        + [if answer.Success? then Reply(chatId, NewsHeader + NewsBlocks(answer.value.newsItems), true)
           else Reply(chatId, NewsApology, false)]
    {
      sent := sent + [Reply(chatId, NewsAck, false)];
      requests := requests + [NewsRequest];
      if answer.Failure? {
        sent := sent + [Reply(chatId, NewsApology, false)];
        return;
      }
      var response := NewsResponse(answer.value.newsItems);
      sent := sent + [Reply(chatId, response, true)];
    }

    /**
     * `/strategy <args>`: a malformed or out-of-vocabulary argument gets its
     * error reply and no request; a valid one gets an acknowledgement, the
     * request, then the report or the apology.
     */
    method OnStrategy(chatId: int, text: string, answer: Call<TradingStrategy.StrategyOutput>)
      requires ArgumentMatch(text, Pattern(Strategy)).Some?
      modifies this
      ensures var parsed := ParseStrategyArgs(ArgumentMatch(text, Pattern(Strategy)).value);
        match parsed
        case InvalidFormat =>
          requests == old(requests) && sent == old(sent) + [Reply(chatId, InvalidFormatText, false)]
        case InvalidVocabulary =>
          requests == old(requests) && sent == old(sent) + [Reply(chatId, InvalidVocabularyText, false)]
        case Parsed(input) =>
          && requests == old(requests) + [StrategyRequest(input)]
          && sent == old(sent) + [Reply(chatId, StrategyAck(input), false)]
               + [if answer.Success? then Reply(chatId, StrategyReport(answer.value), true)
                  else Reply(chatId, StrategyApology, false)]
    {
      var fullArgs := ArgumentMatch(text, Pattern(Strategy)).value;
      var parsed := ParseStrategyArgs(fullArgs);
      if parsed.InvalidFormat? {
        sent := sent + [Reply(chatId, InvalidFormatText, false)];
        return;
      }
      if parsed.InvalidVocabulary? {
        sent := sent + [Reply(chatId, InvalidVocabularyText, false)];
        return;
      }
      var input := parsed.input;
      sent := sent + [Reply(chatId, StrategyAck(input), false)];
      requests := requests + [StrategyRequest(input)];
      if answer.Failure? {
        sent := sent + [Reply(chatId, StrategyApology, false)];
        return;
      }
      sent := sent + [Reply(chatId, StrategyReport(answer.value), true)];
    }
  }

  /**
   * `startTelegramBot`: without a token (unset or empty) there is no bot and
   * so no handler; otherwise a bot that has sent and asked nothing yet.
   */
  method StartTelegramBot(token: Option<string>) returns (bot: Bot?)
    ensures bot == null <==> token.None? || token.value == ""
    ensures bot != null ==> fresh(bot) && bot.sent == [] && bot.requests == []
  {
    if token.None? || token.value == "" {
      return null;
    }
    bot := new Bot();
  }
}
