# Gainezis-Fintrade core, modelled in Dafny

Gainezis-Fintrade is a trading dashboard with a companion Telegram bot. Most of it is
presentational React or prompt text sent to a language model. This project models the small,
exact rules around those model calls, and proves what they guarantee:

- The chat bot: which handlers a message fires, how the `/strategy` argument is split, trimmed
  and checked, and what each handler replies and asks for (`TelegramBot`).
- The response schemas of the three AI operations, and the strategy flow's fallback explanation
  (`TradingStrategy`, `FinancialNewsFlow`, `PublicChannelContent`).
- The speech flow: the payload is taken from the media URL, the chunks are concatenated, and the
  result is wrapped in a `data:audio/wav;base64,` URI (`TextToSpeech`).
- The market clocks: `HH:MM` parsing, and the open/closed rule over `[open, close)` and the
  trading weekdays (`WorldClock`).
- The dashboard widgets as small state machines, one class per component: the news carousel,
  the public feed, the autonomous-trade form, the strategy form and the market-pulse form
  (`FinancialNewsWidget`, `PublicFeed`, `AutonomousTrade`, `StrategyGenerator`, `MarketPulse`).
- The client page: its route table, the choice of layout and the header title (`ClientPage`).

Shared modules:

- `Outcomes` holds `Option` and `Call<T>`. `Call<T>` is what an awaited call settles to:
  `Success(value)` or `Failure(reason)`.
- `Toasts` holds the toast record.
- `JsString` writes out the JavaScript string operations the code relies on: `indexOf`,
  `includes`, `split`, `trim`, ASCII case mapping, `length` in UTF-16 code units and `parseInt`.

Every call into the language model is a `Call<T>` parameter. So are the trade-execution call
and the Telegram network. The random draw, the formatter's output, base64 and the WAV writer are
parameters too. An async handler is split at each `await` into one method per step: a `Begin` or
`Submit` method, then a continuation that receives the settled `Call`.

## Model

| member | source | states |
|---|---|---|
| JsString.IndexOf | src/ai/flows/text-to-speech.ts:75 | `indexOf` of one character is the first index holding it, or -1 exactly when the character is absent |
| JsString.IndexOfFirst | src/ai/flows/text-to-speech.ts:75 | any index holding the character with none before it is the one `indexOf` returns |
| JsString.IndexOfAppend | src/ai/flows/text-to-speech.ts:75 | a character already present in `a` is found at the same index in `a + b` |
| JsString.Includes | src/services/telegram-bot.ts:28 | `includes` (what an unanchored literal regex tests) holds exactly when the pattern occurs at some index |
| JsString.IncludesShift | src/services/telegram-bot.ts:28 | occurrences in `text[1..]` are exactly the occurrences in `text` shifted by one |
| JsString.Split | src/services/telegram-bot.ts:126 | `split` never returns an empty list |
| JsString.JoinSplit | src/services/telegram-bot.ts:126 | split loses nothing: joining the pieces with the separator gives back the text |
| JsString.IndexOfAfter | src/services/telegram-bot.ts:126 | when `a` lacks the separator, the first separator of `a + [sep] + b` is at the index just after `a` |
| JsString.SplitAppend | src/services/telegram-bot.ts:126 | splitting `a + sep + b` gives the pieces of `a` followed by the pieces of `b` |
| JsString.SplitAt | src/services/telegram-bot.ts:126 | one step of `split`: the text before the first separator, then the pieces of what follows it |
| JsString.SplitAtFirst | src/services/telegram-bot.ts:126 | the first separator inside `a` is also the first one of `a + [sep] + b` |
| JsString.SplitFirstPiece | src/services/telegram-bot.ts:126 | a separator-free `a` is the first piece of `a + [sep] + b` |
| JsString.SplitNoSeparator | src/services/telegram-bot.ts:126 | a text without the separator splits into itself alone |
| JsString.TrimStart | src/services/telegram-bot.ts:126 | the dropped start is all white space, and what is kept does not start with white space |
| JsString.TrimStartSuffix | src/services/telegram-bot.ts:126 | what `trimStart` keeps is the unchanged end of the text |
| JsString.TrimEnd | src/services/telegram-bot.ts:126 | the dropped end is all white space, and what is kept does not end with white space |
| JsString.TrimEndPrefix | src/services/telegram-bot.ts:126 | what `trimEnd` keeps is the unchanged start of the text |
| JsString.Trim | src/services/telegram-bot.ts:126 | the result has no white space at either end, and is empty exactly when the text is all white space |
| JsString.TrimMiddle | src/services/telegram-bot.ts:126 | `trim` keeps a contiguous middle part of the text, unchanged |
| JsString.TrimTrimmed | src/services/telegram-bot.ts:126 | a text with no white space at either end is its own trim |
| JsString.ToLower | src/components/dashboard/financial-news.tsx:39 | `toLowerCase` keeps the length, leaves no upper-case letter, keeps every character that is not one, and turns each upper-case letter into the lower-case letter that raises back to it |
| JsString.ToUpper | src/components/client-page.tsx:130 | `toUpperCase` keeps the length, leaves no lower-case letter, keeps every character that is not one, and turns each lower-case letter into the upper-case letter that lowers back to it |
| JsString.LowerIgnoresCase | src/components/dashboard/financial-news.tsx:39 | lower-casing ignores case: raising the letters first changes nothing |
| JsString.LowerIdempotent | src/components/dashboard/financial-news.tsx:39 | lower-casing twice is lower-casing once |
| JsString.Utf16Length | src/components/dashboard/autonomous-trade.tsx:34-39 | the `length` that `.min(n)` checks counts UTF-16 code units: between one and two per character, and one per character when every character is in the Basic Multilingual Plane |
| JsString.Utf16LengthAppend | src/components/dashboard/autonomous-trade.tsx:34-39 | the code-unit length of a concatenation is the sum of the lengths |
| JsString.AstralLength | src/components/dashboard/market-pulse.tsx:32 | a character outside the Basic Multilingual Plane, such as an emoji, is two code units |
| JsString.DigitPrefix | src/components/dashboard/world-clock.tsx:42-43 | the longest leading run of decimal digits: all digits, and followed by a non-digit or the end |
| JsString.ParseInt | src/components/dashboard/world-clock.tsx:42-43 | `parseInt(_, 10)` of a digit string is its value; it is NaN exactly when no digit follows the white space and sign |
| JsString.DigitPrefixOfDigits | src/components/dashboard/world-clock.tsx:42-43 | a string of digits is its own digit prefix |
| TelegramBot.LineRest | src/services/telegram-bot.ts:50 | what greedy `.+` takes: the start of the rest up to, not including, the first line terminator |
| TelegramBot.FirstArgumentAt | src/services/telegram-bot.ts:50 | the leftmost index at which the command, a space and one more character match, or -1 when there is none |
| TelegramBot.ArgumentMatch | src/services/telegram-bot.ts:50-57 | `match[1]` of `/cmd (.+)` is absent exactly when the pattern matches nowhere; when present it is the rest of the line after the leftmost match, non-empty and without a line terminator, so the `!topic` and `!fullArgs` guards are never taken |
| TelegramBot.CommandArgument | src/services/telegram-bot.ts:50-52 | a message that is the command, its space and one non-empty line captures exactly that line |
| TelegramBot.WholeLine | src/services/telegram-bot.ts:50 | `.+` takes the whole of a text that holds no line terminator |
| TelegramBot.FiredAmong | src/services/telegram-bot.ts:28-117 | the handlers among a list that fire are exactly those whose regex matches |
| TelegramBot.FiredAmongInOrder | src/services/telegram-bot.ts:28-117 | filtering keeps the registration order |
| TelegramBot.InOrderCons | src/services/telegram-bot.ts:28-117 | a handler registered before every handler of an ordered list may precede it |
| TelegramBot.Fired | src/services/telegram-bot.ts:28-117 | one message fires exactly the handlers whose regex matches, each once, in registration order |
| TelegramBot.PlainTextFiresNothing | src/services/telegram-bot.ts:28-117 | text without a `/` fires no handler |
| TelegramBot.NoSlashNoMatch | src/services/telegram-bot.ts:28-117 | without `/`, no handler's regex matches |
| TelegramBot.UnanchoredCommand | src/services/telegram-bot.ts:36 | `/help` anywhere inside a message fires the help handler, because the regexes are unanchored |
| TelegramBot.BareArgumentCommands | src/services/telegram-bot.ts:50-57 | `/pulse`, `/strategy` and `/strategyhelp` alone fire neither argument handler |
| TelegramBot.SpacelessText | src/services/telegram-bot.ts:117-124 | a message without a space fires neither `/pulse (.+)` nor `/strategy (.+)` |
| TelegramBot.MissingCharacter | src/services/telegram-bot.ts:28-117 | a pattern holding a character the text lacks occurs nowhere in it |
| TelegramBot.TrimAll | src/services/telegram-bot.ts:126 | `.map(arg => arg.trim())` keeps the number of pieces and trims each piece in place |
| TelegramBot.StrategyFields | src/services/telegram-bot.ts:126 | the fields are the pieces of the argument split at `;`, each trimmed, in order |
| TelegramBot.ParseFields | src/services/telegram-bot.ts:127-151 | "Invalid format" exactly when one of the first three fields is missing or empty; "Invalid asset type" exactly when the fields are present but asset or risk is outside its vocabulary; otherwise the request holds the three fields in order and the two placeholders, and passes the request schema |
| TelegramBot.Fires | src/services/telegram-bot.ts:28-117 | a handler without an argument fires exactly when its literal occurs somewhere in the text; `/pulse` and `/strategy` fire exactly when their literal and space occur followed by a character that is not a line terminator |
| TelegramBot.ParseStrategyArgs | src/services/telegram-bot.ts:126-151 | the whole check is the field checks on the split and trimmed argument, and whatever it accepts passes the request schema |
| TelegramBot.VocabularyLower | src/services/telegram-bot.ts:134-135 | every allowed word is a non-empty lower-case word |
| TelegramBot.LowerWordClean | src/services/telegram-bot.ts:126-127 | a lower-case word holds no `;` and is unchanged by `trim` |
| TelegramBot.VocabularyWords | src/services/telegram-bot.ts:126-135 | no allowed word holds a separator or anything to trim |
| TelegramBot.ThreePieces | src/services/telegram-bot.ts:126 | three separator-free texts joined by `;` split back into exactly those three |
| TelegramBot.ThreeUntrimmed | src/services/telegram-bot.ts:126 | three fields with nothing to trim come out of the trimming unchanged |
| TelegramBot.StrategyRoundTrip | src/services/telegram-bot.ts:126-151 | `asset;risk;text` with allowed words parses into the request carrying the text, the asset and the risk, with the two fixed placeholders |
| TelegramBot.VocabularyFields | src/services/telegram-bot.ts:129-151 | two allowed words and a non-empty market text pass both checks and build that request |
| TelegramBot.ThreeFields | src/services/telegram-bot.ts:126-127 | three clean fields joined by `;` reach the field checks unchanged |
| TelegramBot.ExtraFieldsDropped | src/services/telegram-bot.ts:126-127 | once the argument has three fields, anything after a further `;` changes nothing |
| TelegramBot.TrimAllAppend | src/services/telegram-bot.ts:126 | trimming works piece by piece, so it distributes over concatenation |
| TelegramBot.FirstThreeFields | src/services/telegram-bot.ts:127 | only the first three fields decide the outcome |
| TelegramBot.SemicolonInMarketText | src/services/telegram-bot.ts:126-151 | a `;` inside the market text cuts it short: `a;b;c;rest` is handled as `a;b;c` |
| TelegramBot.StrategyMessage | src/services/telegram-bot.ts:117-151 | the message `/strategy a;b;c`, with allowed words and a one-line market text, captures `a;b;c` and parses into the request carrying `c`, `a` and `b` with the two placeholders |
| TelegramBot.Capitalized | src/services/telegram-bot.ts:137 | the same word with its first letter raised, the rest unchanged |
| TelegramBot.CapitalizedAssetRejected | src/services/telegram-bot.ts:134-140 | the vocabulary check is case-sensitive: `Crypto;low;…` gets "Invalid asset type or risk appetite" |
| TelegramBot.CapitalizedWord | src/services/telegram-bot.ts:134-140 | a capitalised lower-case word stays clean but equals no lower-case word |
| TelegramBot.NewsBlocksAppend | src/services/telegram-bot.ts:86-88 | the blocks of a list are the blocks of its parts one after the other, in response order |
| TelegramBot.NewsBlockShowsTitle | src/services/telegram-bot.ts:87 | each item's block starts with its title in bold |
| TelegramBot.NewsResponse | src/services/telegram-bot.ts:85-88 | the loop builds the fixed header followed by one `*title* (source) - _time_` block per item, in order |
| TelegramBot.Bot.OnStart | src/services/telegram-bot.ts:28-33 | `/start` sends the welcome text and asks for nothing |
| TelegramBot.Bot.OnHelp | src/services/telegram-bot.ts:36-47 | `/help` sends the command list and asks for nothing |
| TelegramBot.Bot.OnStrategyHelp | src/services/telegram-bot.ts:97-114 | `/strategyhelp` sends the usage text as Markdown and asks for nothing |
| TelegramBot.Bot.OnPulse | src/services/telegram-bot.ts:50-77 | `/pulse <topic>` sends the acknowledgement and asks for the analysis of the captured topic, then sends either the report or the apology |
| TelegramBot.Bot.OnNews | src/services/telegram-bot.ts:80-94 | `/news` sends the acknowledgement and asks for the digest, then sends either the formatted list as Markdown or the apology |
| TelegramBot.Bot.OnStrategy | src/services/telegram-bot.ts:117-174 | for a malformed or out-of-vocabulary argument, the error reply and no request; for a valid one, the acknowledgement and the parsed request, then either the report or the apology |
| TelegramBot.StartTelegramBot | src/services/telegram-bot.ts:15-23 | with the token unset or empty there is no bot and so no handler; otherwise a fresh bot that has sent nothing |
| TradingStrategy.ValidInput | src/ai/flows/generate-trading-strategy.ts:16-21 | the request schema: the asset type is `crypto`, `options` or `forex`, the risk appetite `low`, `medium` or `high`; the three texts are free |
| TradingStrategy.ValidOutput | src/ai/flows/generate-trading-strategy.ts:25-35 | the response schema: the explanation is required; the strings are free and the confidence is any number |
| TradingStrategy.DefaultExplanation | src/ai/flows/generate-trading-strategy.ts:116-121 | the fallback explanation has phase `Markup`, three key factors and a confidence in the 0-1 range |
| TradingStrategy.GenerateTradingStrategyFlow | src/ai/flows/generate-trading-strategy.ts:105-126 | a request outside the input schema fails; a failed or null prompt output fails; a present `explainableAI` is returned untouched; a missing one gets the default and nothing else changes; every result has an explanation |
| FinancialNewsFlow.ValidNewsItem | src/ai/flows/fetch-financial-news.ts:13-20 | the item schema: the category is one of the five news categories, and a media type, when present, is `image` or `video` |
| FinancialNewsFlow.ValidNewsOutput | src/ai/flows/fetch-financial-news.ts:24-26 | the response schema: exactly five items, each valid |
| FinancialNewsFlow.FetchFinancialNews | src/ai/flows/fetch-financial-news.ts:13-26 | the digest succeeds exactly when the prompt gives an output of five items with schema-valid categories and media types, and it is then returned as is |
| FinancialNewsFlow.PlainDigestAccepted | src/ai/flows/fetch-financial-news.ts:13-26 | the schema accepts empty titles and needs no sponsored item |
| FinancialNewsFlow.AdvertisementOutsideSchema | src/ai/flows/fetch-financial-news.ts:17 | an item labelled `Advertisement` does not match the item schema |
| PublicChannelContent.ValidOpportunity | src/ai/flows/public-channel-content.ts:13-22 | the item schema: the action is `buy` or `sell`; levels, confidence and gain are free |
| PublicChannelContent.ValidContent | src/ai/flows/public-channel-content.ts:26-28 | the response schema: exactly three opportunities, each valid |
| PublicChannelContent.GenerateTradingOpportunities | src/ai/flows/public-channel-content.ts:13-28 | the list succeeds exactly when the prompt gives three opportunities, each `buy` or `sell`, and it is then returned as is |
| PublicChannelContent.NoHighGainNorOrderRequired | src/ai/flows/public-channel-content.ts:16-27 | a valid response may have no `High` gain, and a stop loss above its take-profit |
| TextToSpeech.Payload | src/ai/flows/text-to-speech.ts:74-77 | the payload is what follows the first comma, or the whole URL when there is no comma |
| TextToSpeech.PrefixComma | src/ai/flows/text-to-speech.ts:82 | the only comma of `data:audio/wav;base64,` is its last character |
| TextToSpeech.PayloadOfDataUri | src/ai/flows/text-to-speech.ts:75-82 | extracting the payload from a built URI returns the encoded text, commas included |
| TextToSpeech.PayloadAt | src/ai/flows/text-to-speech.ts:75 | the payload starts right after the first comma |
| TextToSpeech.DataUriOfPayload | src/ai/flows/text-to-speech.ts:75-82 | rebuilding a URI that starts with the prefix from its payload gives the URI back |
| TextToSpeech.ConcatAppend | src/ai/flows/text-to-speech.ts:105-111 | `Buffer.concat` keeps the order in which the chunks were emitted |
| TextToSpeech.WriterFormat | src/ai/flows/text-to-speech.ts:99-103 | the writer gets the channel count and rate passed in, and a bit depth of 8 times the sample width |
| TextToSpeech.ToWav | src/ai/flows/text-to-speech.ts:92-117 | the result is the writer's chunks concatenated in order and encoded, or the writer's error |
| TextToSpeech.TextToSpeechFlow | src/ai/flows/text-to-speech.ts:71-83 | a failed call or no media fails; otherwise the decoded payload goes to a mono 24 kHz 16-bit writer and the result is the prefix followed by the encoded WAV |
| WorldClock.ToNumber | src/components/dashboard/world-clock.tsx:48-49 | `Number` of a digit string is its value, of `""` is 0, and NaN otherwise |
| WorldClock.TwoDigitValue | src/components/dashboard/world-clock.tsx:48-49 | two digits read as tens and units, so below 100 |
| WorldClock.ClockMinutes | src/components/dashboard/world-clock.tsx:48-53 | `HH:MM` gives hour * 60 + minute, and NaN when a part is missing or not a number |
| WorldClock.ClockOfDigits | src/components/dashboard/world-clock.tsx:48-53 | any two-digit `HH:MM` parses to the minutes it stands for |
| WorldClock.IsOpen | src/components/dashboard/world-clock.tsx:55-58 | open on a trading day when the current minutes lie in `[open, close)`, with NaN on any side comparing false |
| WorldClock.HalfOpenWindow | src/components/dashboard/world-clock.tsx:55-58 | on a trading day the market is open exactly on `[open, close)`: open at the opening minute, closed at the closing one |
| WorldClock.ClosedOffDays | src/components/dashboard/world-clock.tsx:55-58 | off the market's days, or when the time is NaN, the market is closed |
| WorldClock.ListedMarket | src/components/dashboard/world-clock.tsx:17-23 | every listed exchange trades Monday to Friday, with `HH:MM` hours whose window is non-empty, after midnight and within the day |
| WorldClock.ParsedHours | src/components/dashboard/world-clock.tsx:48-53 | hours written as `HH:MM` parse to the minutes they stand for |
| WorldClock.ListedHours | src/components/dashboard/world-clock.tsx:17-53 | every listed exchange's hours parse, and it opens strictly before it closes |
| WorldClock.WeekendClosed | src/components/dashboard/world-clock.tsx:17-23 | every listed exchange is closed on Sunday and on Saturday, at every time |
| WorldClock.FindPart | src/components/dashboard/world-clock.tsx:41 | `find` gives the value of the first part of that kind, or nothing when there is no such part |
| WorldClock.GetPart | src/components/dashboard/world-clock.tsx:41 | `getPart` gives the found value, or `'00'` when that part is missing or empty |
| WorldClock.DisplayTime | src/components/dashboard/world-clock.tsx:46 | the clock text is the hour part, a colon and the minute part, each `'00'` when missing |
| WorldClock.CurrentMinutes | src/components/dashboard/world-clock.tsx:42-51 | the current minutes are a number exactly when both parts parse |
| WorldClock.CurrentOnClockScale | src/components/dashboard/world-clock.tsx:41-53 | when both parts are digit strings, the current minutes are hour * 60 + minute, the same number the exchange-hours parsing gives for the displayed clock text; for two-digit parts that text is `HH:MM` and its minutes |
| WorldClock.DigitsClock | src/components/dashboard/world-clock.tsx:42-53 | `parseInt` and `Number` agree on digit strings, so `hour:minute` parses to hour * 60 + minute |
| WorldClock.TwoDigitClock | src/components/dashboard/world-clock.tsx:46-53 | two two-digit parts make an `HH:MM` text worth hour * 60 + minute |
| WorldClock.MissingPartsReadAsMidnight | src/components/dashboard/world-clock.tsx:41-46 | a formatter that reports neither part shows `00:00` and counts as minute 0 |
| WorldClock.MissingPart | src/components/dashboard/world-clock.tsx:41 | a part that is not reported reads as `'00'` |
| WorldClock.ZeroZero | src/components/dashboard/world-clock.tsx:42 | `parseInt('00', 10)` is 0 |
| WorldClock.ClosedAtMidnight | src/components/dashboard/world-clock.tsx:17-58 | no listed exchange is open at local midnight |
| WorldClock.MarketStatus.UpdateStatus | src/components/dashboard/world-clock.tsx:41-60 | `time` becomes hour `:` minute, and `isOpen` becomes the rule applied to the current day and minutes |
| FinancialNewsWidget.IsSponsored | src/components/dashboard/financial-news.tsx:39 | an item is sponsored when its source in lower case is `gainezis-fintrade` |
| FinancialNewsWidget.SponsorInAnyCase | src/components/dashboard/financial-news.tsx:39 | the sponsor test ignores case: the source in capitals is sponsored exactly when the source is |
| FinancialNewsWidget.Decorate | src/components/dashboard/financial-news.tsx:39-41 | a sponsored item becomes an advertisement and keeps its media type; any other item keeps its category and gets `video` above a draw of 0.7, else `image`; titles, sources, times and hints are untouched |
| FinancialNewsWidget.WithAdvertisement | src/components/dashboard/financial-news.tsx:38-42 | the mapping keeps the number and order of items and decorates each one |
| FinancialNewsWidget.BadgeDestructive | src/components/dashboard/financial-news.tsx:138 | the badge is destructive exactly for the category `Advertisement` |
| FinancialNewsWidget.BadgeMarksSponsored | src/components/dashboard/financial-news.tsx:38-42 | on a schema-valid digest, the destructive badge marks exactly the sponsored items |
| FinancialNewsWidget.DecoratedStaysInVocabulary | src/components/dashboard/financial-news.tsx:41 | a decorated non-sponsored item still matches the item schema |
| FinancialNewsWidget.NewsWidget.ShowsSkeleton | src/components/dashboard/financial-news.tsx:73 | the skeletons show exactly while loading |
| FinancialNewsWidget.NewsWidget.BeginGetNews | src/components/dashboard/financial-news.tsx:35 | `getNews` starts loading and changes nothing else |
| FinancialNewsWidget.NewsWidget.FinishGetNews | src/components/dashboard/financial-news.tsx:37-52 | on success the decorated items replace the list; on failure the list is kept and a destructive toast is raised; loading ends either way |
| PublicFeed.IsBuy | src/components/dashboard/public-feed.tsx:54 | a card is styled as a buy exactly when its action is `buy` |
| PublicFeed.IsHighGain | src/components/dashboard/public-feed.tsx:55 | the flame shows exactly when the gain is the string `High` |
| PublicFeed.SellStyling | src/components/dashboard/public-feed.tsx:54 | on a schema-valid card, the non-buy styling means exactly a `sell` |
| PublicFeed.ShowsSpinner | src/components/dashboard/public-feed.tsx:105 | the spinner shows exactly while loading with an empty list |
| PublicFeed.CardOf | src/components/dashboard/public-feed.tsx:53-70 | a card shows its opportunity, the buy badge exactly for `buy`, and the flame exactly for the gain `High` |
| PublicFeed.CardsOf | src/components/dashboard/public-feed.tsx:110 | one card per opportunity, in list order |
| PublicFeed.CardAreaOf | src/components/dashboard/public-feed.tsx:105-111 | the area is the spinner exactly while loading with an empty list; otherwise it holds one card per opportunity in order, which may be none at all |
| PublicFeed.ValidContentCards | src/components/dashboard/public-feed.tsx:53-111 | a schema-valid response, once loaded, shows three cards, each with the buy badge or else a `sell`, and a flame exactly for the gain `High` |
| PublicFeed.NoFlameRequired | src/components/dashboard/public-feed.tsx:70 | nothing guarantees a flame: a schema-valid response may show none |
| PublicFeed.FeedWidget.ButtonDisabled | src/components/dashboard/public-feed.tsx:114 | the refresh button is disabled exactly while loading |
| PublicFeed.FeedWidget.BeginFetch | src/components/dashboard/public-feed.tsx:33 | fetching starts loading and keeps the list; the spinner shows exactly when the previous list was empty, and otherwise the old cards stay on screen |
| PublicFeed.FeedWidget.FinishFetch | src/components/dashboard/public-feed.tsx:35-46 | success replaces the list; failure empties it and raises a toast; loading ends either way, so the area shows the cards of the new list and never the spinner |
| AutonomousTrade.ValidForm | src/components/dashboard/autonomous-trade.tsx:32-45 | the form schema: a strategy of at least 10 and an asset of at least 2 UTF-16 code units, and three percentages in `[0.1, 100]` |
| AutonomousTrade.Guard | src/components/dashboard/autonomous-trade.tsx:32-91 | a submission is rejected exactly when the form is invalid; deactivated exactly when valid and switched off; keys-required exactly when active with a blank key; executed exactly when active with both keys, and then the form values are passed through |
| AutonomousTrade.DeactivationBeforeKeys | src/components/dashboard/autonomous-trade.tsx:68-83 | switched off, the submission deactivates whether the keys are there or not |
| AutonomousTrade.ExecutedRequestWellFormed | src/components/dashboard/autonomous-trade.tsx:32-91 | every execution carries non-empty keys and in-range percentages |
| AutonomousTrade.FiveEmojiStrategy | src/components/dashboard/autonomous-trade.tsx:34 | five emoji are ten code units, so they meet the strategy's minimum of 10 |
| AutonomousTrade.DefaultsDeactivate | src/components/dashboard/autonomous-trade.tsx:53-74 | the default values pass the form schema but, switched off, only deactivate |
| AutonomousTrade.TradeWidget.Submit | src/components/dashboard/autonomous-trade.tsx:67-91 | each guard outcome gives its toast or nothing; only an executed submission starts loading and records the request |
| AutonomousTrade.TradeWidget.FinishExecution | src/components/dashboard/autonomous-trade.tsx:92-104 | success raises "Trade Executed", failure raises "Execution Failed"; loading ends either way |
| StrategyGenerator.ValidForm | src/components/dashboard/strategy-generator.tsx:39-45 | the form schema: the two vocabularies, and three texts of at least one UTF-16 code unit |
| StrategyGenerator.FormNeedsNonEmptyTexts | src/components/dashboard/strategy-generator.tsx:42-44 | at least one code unit means exactly a non-empty text |
| StrategyGenerator.FormMeetsRequestSchema | src/components/dashboard/strategy-generator.tsx:39-45 | every submitted form passes the operation's request schema |
| StrategyGenerator.RequestSchemaIsLooser | src/components/dashboard/strategy-generator.tsx:39-45 | the request schema accepts empty texts that the form refuses |
| StrategyGenerator.StrategyWidget.ResultPanelVisible | src/components/dashboard/strategy-generator.tsx:185 | the result panel shows exactly when there is a result |
| StrategyGenerator.StrategyWidget.Submit | src/components/dashboard/strategy-generator.tsx:63-66 | an invalid form does nothing; a valid one starts loading, clears the result and sends the values |
| StrategyGenerator.StrategyWidget.Finish | src/components/dashboard/strategy-generator.tsx:66-81 | success sets the result, failure leaves it as it was and raises a destructive toast; loading ends either way |
| StrategyGenerator.SubmitAndSettle | src/components/dashboard/strategy-generator.tsx:63-82 | after a whole submission the result panel shows exactly when the call succeeded, and it holds the response |
| MarketPulse.ValidTopic | src/components/dashboard/market-pulse.tsx:31-34 | the form schema: a topic of at least two UTF-16 code units |
| MarketPulse.TopicLength | src/components/dashboard/market-pulse.tsx:32 | two characters pass, one character of the Basic Multilingual Plane fails, and one emoji alone passes |
| MarketPulse.PulseWidget.AnalysisVisible | src/components/dashboard/market-pulse.tsx:111 | the analysis block shows exactly when the analysis is a non-empty string |
| MarketPulse.PulseWidget.AudioVisible | src/components/dashboard/market-pulse.tsx:111-123 | the player is never shown without the analysis block |
| MarketPulse.PulseWidget.Submit | src/components/dashboard/market-pulse.tsx:50-55 | a topic under two UTF-16 code units does nothing; otherwise loading starts, both fields are cleared and the topic is sent |
| MarketPulse.PulseWidget.OnPulseResult | src/components/dashboard/market-pulse.tsx:55-63 | success shows the analysis and sends its audio script to speech; failure sets neither field, raises a destructive toast and ends loading |
| MarketPulse.PulseWidget.OnSpeechResult | src/components/dashboard/market-pulse.tsx:63-79 | success sets the audio; failure keeps the analysis and the cleared audio; loading ends either way |
| MarketPulse.PulseThenSpeech | src/components/dashboard/market-pulse.tsx:50-80 | after a successful analysis, speech receives its script and the analysis stays shown; the player shows exactly when speech succeeded with non-empty analysis |
| MarketPulse.PulseFails | src/components/dashboard/market-pulse.tsx:50-80 | a failed analysis leaves both fields cleared and asks for no speech |
| ClientPage.RenderContent | src/components/client-page.tsx:28-108 | each of the eleven listed paths renders its page, and every other path renders the landing page |
| ClientPage.LandingOnlyByDefault | src/components/client-page.tsx:106-107 | the landing page is rendered exactly for the unlisted paths |
| ClientPage.HeaderTitle | src/components/client-page.tsx:130 | the title is the character at index 1 raised, so not a lower-case letter, then the rest from index 2; empty for a path too short |
| ClientPage.DashboardCaseAgrees | src/components/client-page.tsx:130 | the general rule already gives `Dashboard` for `/dashboard` |
| ClientPage.SegmentTitle | src/components/client-page.tsx:130 | a one-segment path is titled by its segment with the first letter raised |
| ClientPage.LayoutOf | src/components/client-page.tsx:111-137 | `/login` and `/signup` are centred, `/` is bare, and every other path has the sidebar with the header title |
| ClientPage.ScreenOf | src/components/client-page.tsx:111-137 | a path shows its layout around its content |
| ClientPage.RootIsBareLanding | src/components/client-page.tsx:106-120 | `/` shows the landing page bare |
| ClientPage.StrategyScreen | src/components/client-page.tsx:28-137 | `/strategy` shows the strategy form in the sidebar, titled `Strategy` |
| ClientPage.UnknownPathScreen | src/components/client-page.tsx:106-137 | `/foo` shows the landing page in the sidebar, titled `Foo` |

## Left out

- Language-model prompts and calls (`definePrompt`, `defineFlow`, `generate`) are a `Call<T>` parameter per call. The prompt wording is not modelled. The trade-execution and market-pulse operations add no logic, so only their records appear.
- Genkit checks each flow's output against its `outputSchema`. That check is framework behaviour, not visible in the code. `FetchFinancialNews` and `GenerateTradingOpportunities` state it; `GenerateTradingStrategyFlow` checks only the request schema before the prompt.
- The Telegram client is not modelled: polling, sending, Markdown rendering and the call to `startTelegramBot()` at import time. A sent message is a `Reply` appended to `Bot.sent`, and each handler runs to completion with its call's result as a parameter. A failed send of the acknowledgement is not a separate case.
- The console logging and the logging-only message listener (src/services/telegram-bot.ts:177-184) are left out.
- The guards `if (!topic)` and `if (!fullArgs)` have no code in the model. The library calls these handlers only after their regex matched, and `ArgumentMatch` proves the capture is then non-empty.
- The time-zone formatter, `Date`, `toLocaleString` and the 60-second interval are not modelled. The formatter's parts and the local weekday are the inputs of `UpdateStatus`.
- `Math.random` is the `draws` parameter, one draw per item.
- The `wav` writer and base64 are function parameters. The WAV header layout is not modelled.
- Number formatting is not modelled. Prices and percentages are `real`; floating-point rounding, NaN and infinity are not.
- Async interleaving of concurrent handlers and React's re-render scheduling are not modelled. Each widget method is one uninterrupted step. The `stage` ghost field of `MarketPulse.PulseWidget` fixes the order of its steps.
- Toast descriptions, form error messages and markup are not modelled. A toast is its title and whether it is destructive.
- The presentational pages (landing, billing, lending, login, signup, GPT chat, sidebar, market watch) and `src/ai/dev.ts` hold no logic, and are not part of this model.
- JsString.ToLower: maps only the ASCII letters. `toLowerCase` maps all of Unicode, so the sponsor test is exact only on ASCII sources.
- JsString.ToUpper: like `ToLower`, it maps only the ASCII letters, so the header title is exact only when the path's second character is ASCII. `toUpperCase` can also lengthen a character (`ß` becomes `SS`), which the model does not do.
- WorldClock.ToNumber: gives NaN for every string that is neither digits nor empty. `Number` also reads signs, surrounding white space, decimals and hexadecimal. That never arises here, because the market table's hours are all two-digit `HH:MM`.
- The schemas promise nothing beyond what they check. The news prompt asks for a sponsored item, and the opportunity schema's description asks for a high-gain one. Neither is enforced, and `PlainDigestAccepted` and `NoHighGainNorOrderRequired` show it.
