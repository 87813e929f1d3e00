# Artverse archive: search, catalogue feed, metadata worker and chat widget

This project models the core of the Artverse NFT archive and proves properties of the model. It has three parts.

- **The browser data hook** (`useNFTData`):
  - normalises backend asset records into display cards;
  - parses the search mini-language (`blockchain:`/`chain:`, `type:`, `#id` or bare digits, quoted phrases, free terms);
  - filters the catalogue by the parsed query;
  - hands the result out twelve assets per page.
- **The metadata worker**, for each mint job:
  - resolves the token URI (IPFS and Arweave gateways) and fetches the JSON metadata;
  - extracts its well-known fields;
  - caches the image and the animation in S3 under the hash of the original URL;
  - decides which `nft_metadata` and `nft_media` rows to insert.
- **The chat widget**:
  - keeps the conversation with the assistant webhook: the greeting, questions and answers in turn, and at most one request in flight;
  - renders the media attached to a reply.

Modules:

| file | module | models |
|---|---|---|
| `wrappers.dfy` | `Wrappers` | optional values and results |
| `text.dfy` | `Text` | JavaScript whitespace, `trim`, `startsWith`, `includes`, ASCII `toLowerCase`, `join`, truthiness |
| `json.dfy` | `Json` | JSON values, member lookup, JavaScript `String(value)` |
| `catalog.dfy` | `Catalog` | the record normaliser of the data hook |
| `search.dfy` | `Search` | `parseSearchQuery` and `filterNFTs` |
| `feed.dfy` | `Feed` | the paginated feed: class `NFTFeed` |
| `worker.dfy` | `MetadataWorker` | URI resolution, metadata and media fetching, and the per-job write plan |
| `chat.dfy` | `ChatWidget` | class `NFTChatWidget` and `renderMedia` |

## How the model is built

- **State changes are split in two.** React state updates and the widget's asynchronous `sendMessage` each become a class method that starts the work and a second method that completes it with the outcome it was given:
  - `QueryChanged`/`LoadMore`, then `CompleteLoad`;
  - `BeginSend`, then `CompleteSend`.
- **Network, storage and hashing are parameters.**
  - HTTP answers are `Response` values; S3 success is a flag.
  - SHA-256 is the function parameter `sha`.
  - The world one job meets is a `JobWorld` value.
- **The `blockchain:` filter is modelled as the code computes it.**
  - The prefix `blockchain:` is stripped with `substring(10)`, one character short, so the stored chain keeps its colon. `blockchain:Ethereum` becomes `:ethereum`.
  - The search bar offers the chip `blockchain:ethereum` (artverse-archive/src/components/SearchBar.tsx:73). With the code as written, that query keeps no asset whose chain is `ethereum`.
  - `Search.BlockchainQueryKeepsColon` proves the general effect: such a query keeps only assets whose lowercased chain is `:` followed by the value. `Search.EthereumChipKeepsNoEthereumAsset` states it for the chip.

## Model

| member | source | states |
|---|---|---|
| Text.IsSpace | artverse-archive/src/hooks/useNFTData.tsx:47 | definition of the `\s` class and of what `trim` removes (ECMAScript WhiteSpace and LineTerminator); see Search.RunEnd and Text.TrimShape |
| Text.IsLineTerminator | artverse-archive/src/hooks/useNFTData.tsx:47-50 | definition of the characters a regular-expression `.` does not match; see Search.ClosingQuote and Search.StripQuotes |
| Text.TrimStart | artverse-archive/src/hooks/useNFTData.tsx:71 | the result is a suffix of the input, starts with no whitespace, and only whitespace was removed |
| Text.TrimEnd | artverse-archive/src/hooks/useNFTData.tsx:71 | the result is a prefix of the input, ends with no whitespace, and only whitespace was removed |
| Text.Trim | artverse-archive/src/hooks/useNFTData.tsx:71 | definition (`trimEnd` after `trimStart`); see Text.TrimShape, Text.TrimEmptyIffBlank and Text.TrimPadded |
| Text.TrimShape | artverse-archive/public/ChatWidget.js:463 | `trim` gives an occurrence of the input with no whitespace at either end, flanked in the input by whitespace only |
| Text.TrimEmptyIffBlank | artverse-archive/src/hooks/useNFTData.tsx:71 | a query trims to the empty string exactly when every character is whitespace, so `!query.trim()` means "blank" |
| Text.TrimStartPadded | artverse-archive/public/ChatWidget.js:463 | leading whitespace in front of a non-blank start is exactly what `trimStart` removes |
| Text.TrimEndPadded | artverse-archive/public/ChatWidget.js:463 | trailing whitespace after a non-blank end is exactly what `trimEnd` removes |
| Text.TrimPadded | artverse-archive/public/ChatWidget.js:463 | `trim` returns the text inside any blank padding, so a padded question is sent as the bare question |
| Text.IsDigits | artverse-archive/src/hooks/useNFTData.tsx:60 | definition of `/^\d+$/`: non-empty and all decimal digits; see Search.TokenIdForms |
| Text.Or | artverse-archive/src/hooks/useNFTData.tsx:164-173 | definition of JavaScript's logical or with a string fallback; see Catalog.Normalize |
| Text.Contains | artverse-archive/src/hooks/useNFTData.tsx:98-99 | definition of `includes`; see Search.DigitsQuerySelects and Search.KeptAssetsContainTerms |
| Text.Lower | artverse-archive/src/hooks/useNFTData.tsx:53 | definition of `toLowerCase`, folding ASCII letters; see Search.ChainPrefix and Search.PlainWordIsTerm |
| Text.StartsWith | artverse-archive/src/hooks/useNFTData.tsx:52-58 | definition of `startsWith`, as also used by `starts_with` at metadata_worker/src/main.rs:34-37; see Search.ChainPrefix and MetadataWorker.ResolveUri |
| Text.Join | artverse-archive/src/hooks/useNFTData.tsx:104-110 | definition of `join(' ')`; see Search.TokenizeJoin and Search.KeptAssetsContainTerms |
| Text.Truthy | artverse-archive/src/hooks/useNFTData.tsx:76-98 | definition of JavaScript truthiness of an optional string, so an empty filter value imposes nothing; see Search.ChainQuerySelects |
| Text.Interpolate | artverse-archive/src/hooks/useNFTData.tsx:165 | definition of a template-literal value, `undefined` when absent; see Catalog.Normalize |
| Json.LookupMember | metadata_worker/src/main.rs:65-69 | definition of the member lookup; see Json.LookupMemberFindsLast |
| Json.Get | metadata_worker/src/main.rs:65-69 | definition of serde's `get` on an object (nothing on any other value); see Json.GetStr |
| Json.LookupMemberFindsLast | metadata_worker/src/main.rs:65-69 | a member is found exactly when the object has that key, and the value found is the one given by the last member with that key |
| Json.GetStr | metadata_worker/src/main.rs:65-68 | `get(key).and_then(as_str)` is present exactly when the member exists and is a JSON string, and then it is that string |
| Json.JsString | artverse-archive/src/hooks/useNFTData.tsx:161 | definition of `String(value)` for a JSON value; see Catalog.NormalizeAttributes |
| Catalog.ImageUrl | artverse-archive/src/hooks/useNFTData.tsx:134-144 | the card image is never empty; precedence is cached URL, then `raw_metadata.image`, then `raw_metadata.image_url`; with none of them it is the stock fallback image |
| Catalog.Meta | artverse-archive/src/hooks/useNFTData.tsx:134-172 | definition of `raw_metadata?.<key>`, absent without `raw_metadata`; see Catalog.ImageUrl and Catalog.Normalize |
| Catalog.NormalizeAttributes | artverse-archive/src/hooks/useNFTData.tsx:157-162 | an attribute array is kept as is; an attribute object becomes one pair per entry, its key and `String(value)`; anything else gives no attributes |
| Catalog.Normalize | artverse-archive/src/hooks/useNFTData.tsx:164-173 | the id is `contract:token` (absent parts print `undefined`); name and image are never empty; the image is the one `ImageUrl` picks and the attributes are the normalised attribute list; name and description prefer the record, then `raw_metadata`, then `Unnamed NFT` or `""`; chain, collection and mint date default to `""` |
| Catalog.NormalizeAll | artverse-archive/src/hooks/useNFTData.tsx:133 | definition (`map` of the normaliser); see Catalog.CardsAreComplete |
| Catalog.CardsAreComplete | artverse-archive/src/hooks/useNFTData.tsx:133-173 | every card of the grid has a non-empty image and a non-empty name |
| Catalog.NormalizeExample | artverse-archive/src/hooks/useNFTData.tsx:133-173 | a record with only a contract, a token id, a chain, a metadata name and a metadata image becomes the expected card |
| Search.ClosingQuote | artverse-archive/src/hooks/useNFTData.tsx:47 | a quoted run closes at the first double quote at or after its opening position, with neither a double quote nor a line terminator before it |
| Search.NoClosingQuote | artverse-archive/src/hooks/useNFTData.tsx:47 | when no quote closes the run, a line terminator or the end of the query comes before any double quote |
| Search.ClosingQuoteAt | artverse-archive/src/hooks/useNFTData.tsx:47 | a double quote preceded only by characters that are neither quotes nor line terminators is where the run closes |
| Search.RunEnd | artverse-archive/src/hooks/useNFTData.tsx:47 | `\S+` matches a maximal run: no whitespace inside, whitespace or the end right after |
| Search.Tokenize | artverse-archive/src/hooks/useNFTData.tsx:47 | definition of the global `match`, or no parts when nothing matches; see Search.TokenizeJoin, Search.QuotedPhrase and Search.SingleRunIsOneToken |
| Search.TokensFrom | artverse-archive/src/hooks/useNFTData.tsx:47 | every token is non-empty, and there are none exactly when only whitespace is left |
| Search.WordToken | artverse-archive/src/hooks/useNFTData.tsx:47 | a non-empty word with no whitespace that does not open a quote, followed by whitespace or the end, is the next token |
| Search.TokensOfJoin | artverse-archive/src/hooks/useNFTData.tsx:47 | from a position where such words follow, separated by single spaces, the tokens are exactly those words |
| Search.TokenizeJoin | artverse-archive/src/hooks/useNFTData.tsx:47 | a query of such words joined by single spaces tokenises back into the words |
| Search.QuotedPhrase | artverse-archive/src/hooks/useNFTData.tsx:47-50 | a phrase in double quotes without quotes or line terminators inside is one token, and what is classified is the phrase without its quotes |
| Search.SingleRunIsOneToken | artverse-archive/src/hooks/useNFTData.tsx:47 | a query without whitespace that does not open a quote is one token, itself |
| Search.UnquotedTokensHaveNoSpace | artverse-archive/src/hooks/useNFTData.tsx:47 | without double quotes, no token contains whitespace |
| Search.StripQuotes | artverse-archive/src/hooks/useNFTData.tsx:50 | a token that is a pair of double quotes around a body without line terminators loses exactly those two quotes; every other token is unchanged |
| Search.QuotedOnOneLine | artverse-archive/src/hooks/useNFTData.tsx:50 | definition of what `/^"(.*)"$/` matches; see Search.StripQuotes and Search.QuotedPhrase |
| Search.Classify | artverse-archive/src/hooks/useNFTData.tsx:52-63 | definition of the prefix chain; see Search.BlockchainPrefixKeepsColon, Search.ChainPrefix, Search.TypePrefix, Search.TokenIdForms and Search.PlainWordIsTerm |
| Search.TokenOf | artverse-archive/src/hooks/useNFTData.tsx:50-63 | definition: quotes stripped, then classified; see Search.QuotedPhrase, Search.OtherTokenIsTerm and Search.ParseStep |
| Search.BlockchainPrefixKeepsColon | artverse-archive/src/hooks/useNFTData.tsx:52-53 | `blockchain:X` sets the chain filter to `:` followed by lowercased X |
| Search.ChainPrefix | artverse-archive/src/hooks/useNFTData.tsx:54-55 | `chain:X` sets the chain filter to lowercased X |
| Search.TypePrefix | artverse-archive/src/hooks/useNFTData.tsx:56-57 | `type:X` sets the file-type filter to lowercased X |
| Search.TokenIdForms | artverse-archive/src/hooks/useNFTData.tsx:58-61 | `#X` and an all-digit token set the token-id filter verbatim, without case folding |
| Search.PlainWordIsTerm | artverse-archive/src/hooks/useNFTData.tsx:52-63 | any word of lowercase letters, such as `cat` or `token`, is a free term, itself |
| Search.OtherTokenIsTerm | artverse-archive/src/hooks/useNFTData.tsx:50-63 | a token that is not a quoted phrase, starts with none of `blockchain:`, `chain:`, `type:`, `#` and is not all digits is pushed as a lowercased term |
| Search.PlainWordExamples | artverse-archive/src/hooks/useNFTData.tsx:52-63 | `cat` and `token` are free terms although they start like `chain:` and `type:` |
| Search.ParseSearchQuery | artverse-archive/src/hooks/useNFTData.tsx:43-68 | the loop over the parts computes exactly the left-to-right application of the tokens to an empty query |
| Search.AddPart | artverse-archive/src/hooks/useNFTData.tsx:48-64 | the `forEach` callback applies the part's token: the prefix forms overwrite their filter, anything else is pushed as a lowercased term |
| Search.ParseStep | artverse-archive/src/hooks/useNFTData.tsx:48-64 | parsing one more part applies its token to the query parsed so far |
| Search.Apply | artverse-archive/src/hooks/useNFTData.tsx:52-64 | definition of one token's effect; see Search.ApplyFilter and Search.TermsInInputOrder |
| Search.ParseQuery | artverse-archive/src/hooks/useNFTData.tsx:43-68 | definition; see Search.ParseSearchQuery, Search.FilterComesFromSomeToken and Search.LastTokenWins |
| Search.ApplyFilter | artverse-archive/src/hooks/useNFTData.tsx:52-63 | a token overwrites the filter key it sets and leaves the other keys alone |
| Search.ParseTokens | artverse-archive/src/hooks/useNFTData.tsx:48-66 | definition: the tokens applied left to right to an empty query; see Search.ParseStep, Search.FilterComesFromSomeToken and Search.LastTokenWins |
| Search.FilterComesFromSomeToken | artverse-archive/src/hooks/useNFTData.tsx:49-65 | a filter key is set exactly when some token sets it, and then to a value some token gave |
| Search.LastTokenWins | artverse-archive/src/hooks/useNFTData.tsx:49-65 | when several tokens set a key, the last one's value is kept |
| Search.TermsInInputOrder | artverse-archive/src/hooks/useNFTData.tsx:62-64 | the terms are exactly the free-term tokens, in input order |
| Search.ParseExample | artverse-archive/src/hooks/useNFTData.tsx:43-68 | the parts `blockchain:Ethereum`, `#42`, `bored`, `ape` parse to terms `bored`, `ape`, chain `:ethereum` and token id `42` |
| Search.ParseWords | artverse-archive/src/hooks/useNFTData.tsx:43-68 | a query of bare words separated by single spaces parses word by word |
| Search.ParseExampleQuery | artverse-archive/src/hooks/useNFTData.tsx:43-68 | the query `blockchain:Ethereum #42 bored ape` parses to terms `bored`, `ape`, chain `:ethereum` and token id `42` |
| Search.SearchableText | artverse-archive/src/hooks/useNFTData.tsx:103-112 | definition of the text free terms are searched in; see Search.KeptAssetsContainTerms |
| Search.AttributeTexts | artverse-archive/src/hooks/useNFTData.tsx:109 | definition of `trait_type value` per attribute; see Search.KeptAssetsContainTerms |
| Search.MentionsAny | artverse-archive/src/hooks/useNFTData.tsx:85-93 | definition of the keyword `some` over the lowercased image URL and name; see Search.UnknownTypeKeepsAll |
| Search.ChainClause | artverse-archive/src/hooks/useNFTData.tsx:76-78 | definition; see Search.ChainQuerySelects |
| Search.FileTypeClause | artverse-archive/src/hooks/useNFTData.tsx:80-96 | definition; see Search.ImageTypeQuerySelects, Search.VideoTypeQuerySelects and Search.UnknownTypeKeepsAll |
| Search.TokenIdClause | artverse-archive/src/hooks/useNFTData.tsx:98-101 | definition; see Search.DigitsQuerySelects |
| Search.TermsClause | artverse-archive/src/hooks/useNFTData.tsx:103-114 | definition; see Search.KeptAssetsContainTerms |
| Search.Matches | artverse-archive/src/hooks/useNFTData.tsx:75-117 | definition (all four clauses); see Search.Keep and Search.SelectsByMatches |
| Search.Keep | artverse-archive/src/hooks/useNFTData.tsx:75-117 | the kept assets are an order-preserving sublist of the catalogue, and an asset is kept exactly when it matches every clause |
| Search.KeepAllMatching | artverse-archive/src/hooks/useNFTData.tsx:75-117 | when every asset matches, filtering returns the catalogue unchanged |
| Search.KeepCounts | artverse-archive/src/hooks/useNFTData.tsx:75-117 | each matching asset is kept as many times as it occurs in the catalogue, and every other asset not at all |
| Search.FilterNFTs | artverse-archive/src/hooks/useNFTData.tsx:70-118 | a blank query returns the list unchanged; otherwise the result is an order-preserving sublist holding exactly the assets that match the parsed query |
| Search.FilterCounts | artverse-archive/src/hooks/useNFTData.tsx:70-118 | for a non-blank query, each matching asset is kept as many times as it occurs, and every other asset not at all |
| Search.SingleTokenQuery | artverse-archive/src/hooks/useNFTData.tsx:43-68 | a query that is one part parses to that part's token applied to the empty query |
| Search.SelectsByMatches | artverse-archive/src/hooks/useNFTData.tsx:70-118 | a non-blank query keeps exactly the assets that match what it parses to |
| Search.ChainQuerySelects | artverse-archive/src/hooks/useNFTData.tsx:76-78 | `chain:X` keeps exactly the assets whose lowercased chain equals lowercased X |
| Search.BlockchainQueryKeepsColon | artverse-archive/src/hooks/useNFTData.tsx:52-53 | `blockchain:X` keeps exactly the assets whose lowercased chain is `:` followed by lowercased X, and drops every asset whose chain is X |
| Search.EthereumChipKeepsNoEthereumAsset | artverse-archive/src/components/SearchBar.tsx:73 | the search bar's chip `blockchain:ethereum` keeps no asset whose lowercased chain is `ethereum` |
| Search.UnknownTypeKeepsAll | artverse-archive/src/hooks/useNFTData.tsx:80-96 | a file type other than `image` or `video` filters nothing out |
| Search.TypeQueryParses | artverse-archive/src/hooks/useNFTData.tsx:56-57 | `type:image` and `type:video`, in any letter case, parse to that file-type filter alone |
| Search.ImageTypeQuerySelects | artverse-archive/src/hooks/useNFTData.tsx:80-88 | `type:image` keeps exactly the assets whose lowercased image URL or name contains one of `image`, `img`, `jpeg`, `jpg`, `png`, `gif`, `webp` |
| Search.VideoTypeQuerySelects | artverse-archive/src/hooks/useNFTData.tsx:80-96 | `type:video` keeps exactly the assets whose lowercased image URL or name contains one of `video`, `mp4`, `avi`, `mov`, `webm` |
| Search.VideoQueryKeepsMp4 | artverse-archive/src/hooks/useNFTData.tsx:91-93 | an asset whose lowercased image URL contains `mp4` is kept by `type:video` |
| Search.DigitsQuerySelects | artverse-archive/src/hooks/useNFTData.tsx:98-101 | a bare number keeps exactly the assets whose id contains it or whose lowercased name contains `#` followed by it |
| Search.KeptAssetsContainTerms | artverse-archive/src/hooks/useNFTData.tsx:103-114 | every kept asset's searchable text contains each free term of the query |
| Feed.Slice | artverse-archive/src/hooks/useNFTData.tsx:179 | `slice` clamps both ends to the list: its length and its elements |
| Feed.PrefixThenPage | artverse-archive/src/hooks/useNFTData.tsx:185 | appending the page that starts at k to the first k assets gives the first k + 12 |
| Feed.Filtered | artverse-archive/src/hooks/useNFTData.tsx:133-176 | definition of `filterNFTs` over the normalised records; see Feed.NFTFeed.CompleteLoad |
| Feed.NFTFeed.constructor | artverse-archive/src/hooks/useNFTData.tsx:36-39 | no assets, not loading, more to come, page 1 |
| Feed.NFTFeed.QueryChanged | artverse-archive/src/hooks/useNFTData.tsx:203-206 | a new search string resets to page 1 and starts a reset load |
| Feed.NFTFeed.LoadMore | artverse-archive/src/hooks/useNFTData.tsx:197-201 | does nothing while a load is in flight or nothing is left, and otherwise starts a non-reset load |
| Feed.NFTFeed.CompleteLoad | artverse-archive/src/hooks/useNFTData.tsx:120-195 | failure empties the list and stops paging; a reset shows the first page and sets page 2; a later load appends the next page; `hasMore` says whether matches remain; the first page-1 pages stay on show |
| Feed.NFTFeed.ShowNextPage | artverse-archive/src/hooks/useNFTData.tsx:176-188 | a reset shows the first twelve matches and sets page 2; otherwise the next twelve are appended and the page advances; `hasMore` says whether matches remain past the page; the first page-1 pages stay on show |
| Feed.NFTFeed.TotalCountIsVisibleCount | artverse-archive/src/hooks/useNFTData.tsx:213 | `totalCount` counts the assets on show, fewer than the matches while more remain; it is not the number of matches |
| MetadataWorker.TrimStartMatches | metadata_worker/src/main.rs:35 | definition of `trim_start_matches`; see MetadataWorker.TrimStartMatchesShape, MetadataWorker.TrimRemovesCopies and MetadataWorker.TrimStacked |
| MetadataWorker.TrimStartMatchesShape | metadata_worker/src/main.rs:35 | `trim_start_matches` gives a suffix of the input that no longer starts with the pattern |
| MetadataWorker.TrimRemovesCopies | metadata_worker/src/main.rs:35 | what is removed is a whole number of copies of the pattern |
| MetadataWorker.TrimStacked | metadata_worker/src/main.rs:35 | any number of copies in front of a rest that does not start with the pattern all go |
| MetadataWorker.ResolveUri | metadata_worker/src/main.rs:33-43 | `ipfs://` and `ar://` URIs go to their gateways without the repeated scheme; other URIs are unchanged; the result never starts with either scheme |
| MetadataWorker.ResolveUriIdempotent | metadata_worker/src/main.rs:33-43 | resolving a resolved URI changes nothing |
| MetadataWorker.StackedIpfsSchemes | metadata_worker/src/main.rs:34-36 | `ipfs://ipfs://…path` resolves to the gateway followed by the path |
| MetadataWorker.LastDot | metadata_worker/src/main.rs:113 | `rfind('.')` gives a dot with no dot after it, or there is no dot at all |
| MetadataWorker.Extension | metadata_worker/src/main.rs:113-119 | the extension is non-empty and has no `/`, `\` or `.`; it is `bin` or the text after the last dot |
| MetadataWorker.ExtensionAfterLastDot | metadata_worker/src/main.rs:113-119 | a URL ending in a dot and a clean suffix yields that suffix |
| MetadataWorker.S3Key | metadata_worker/src/main.rs:124 | the key is the hash, a dot, and the extension |
| MetadataWorker.S3Url | metadata_worker/src/main.rs:81 | the URL is `https://`, the bucket, `.s3.amazonaws.com/` and then the key |
| MetadataWorker.CachedUrlKeepsExtension | metadata_worker/src/main.rs:113-126 | the cached S3 URL has the same extension as the media it stores |
| MetadataWorker.UploadToS3 | metadata_worker/src/main.rs:73-83 | the upload yields the object URL exactly when `put_object` succeeds |
| MetadataWorker.FetchAndCacheMedia | metadata_worker/src/main.rs:86-136 | success exactly when the status is 200, the body was read, S3 is configured and the upload succeeds; the result is then the S3 URL of the hashed original URL with the resolved URL's extension, the resolved URL and `s3`; a send failure, a non-200 status, an unreadable body, missing S3 configuration and a failed upload each give their own error |
| MetadataWorker.NormalizeMetadata | metadata_worker/src/main.rs:65-70 | name, description, image and animation URL are taken exactly when they are JSON strings; attributes are taken as given; the document is kept whole |
| MetadataWorker.FetchAndNormalizeMetadata | metadata_worker/src/main.rs:45-71 | success exactly on a 200 response with a JSON body, and the result is then that body normalised; request failure, a non-200 status and invalid JSON each give their error, naming the resolved URI |
| MetadataWorker.MediaWrites | metadata_worker/src/main.rs:219-237 | a media row is written exactly when there is a URL and caching it succeeded, with the job's token, the unresolved URL and the S3 object URL |
| MetadataWorker.PlanJob | metadata_worker/src/main.rs:199-262 | nothing is written without a metadata URI or when the metadata fetch fails; otherwise the metadata row comes first, with the job's keys and the normalised fields; at most three writes |
| MetadataWorker.PlanShape | metadata_worker/src/main.rs:201-256 | once the metadata arrived, the plan is exactly the metadata row, then the image's write if any, then the animation's if any |
| MetadataWorker.MetadataInsert | metadata_worker/src/main.rs:206-215 | definition of the `nft_metadata` insert from the job and the normalised fields; see MetadataWorker.PlanJob and MetadataWorker.PlanShape |
| MetadataWorker.MediaRowFor | metadata_worker/src/main.rs:219-256 | definition of a media row for the job: its token, the type of the URL it came from, S3 under the hash of that URL; see MetadataWorker.MediaWriteIsRowFor and MetadataWorker.MediaRowsOfJob |
| MetadataWorker.MediaWriteIsRowFor | metadata_worker/src/main.rs:219-237 | a media write made for the metadata's `image` or `animation_url` is a row for the job's token with that type, stored in S3 under the hash of that URL |
| MetadataWorker.MediaRowsOfJob | metadata_worker/src/main.rs:219-256 | every media row belongs to the job's token and is stored in S3 under the hash of its original URL; that URL is the metadata's `image` or `animation_url`, matching its type; an image row comes first |
| MetadataWorker.NoMediaWithoutS3 | metadata_worker/src/main.rs:132-135 | without an S3 client and bucket, a job writes at most its metadata row |
| ChatWidget.Reply | artverse-archive/public/ChatWidget.js:496-517 | the assistant's bubble is never empty: the reply's `message`, else its `text`, else the stock apology, with its media or none; a failed call gives the error bubble |
| ChatWidget.ViewOf | artverse-archive/public/ChatWidget.js:564-590 | only `image` and `link` entries are shown; captions fall back to `NFT Image` and `View NFT`, so they are never empty; a link shows its description only when it is non-empty |
| ChatWidget.ViewsOf | artverse-archive/public/ChatWidget.js:562-591 | definition of the `forEach` over the entries; see ChatWidget.RenderMedia, ChatWidget.ViewsOfAppend and ChatWidget.ViewsAreShownEntries |
| ChatWidget.RenderMedia | artverse-archive/public/ChatWidget.js:558-594 | no panel for an empty list; otherwise the panel holds the views of the entries in order, built by the loop |
| ChatWidget.ViewsOfAppend | artverse-archive/public/ChatWidget.js:562-591 | the views of two lists in turn are the views of their concatenation |
| ChatWidget.ViewsAreShownEntries | artverse-archive/public/ChatWidget.js:562-591 | there is one view per shown entry, and every view is the view of some shown entry |
| ChatWidget.UnknownKindsGiveEmptyPanel | artverse-archive/public/ChatWidget.js:558-594 | a non-empty list of only unknown entry types opens an empty panel |
| ChatWidget.Alternates | artverse-archive/public/ChatWidget.js:346-356 | definition: the greeting first, then user and assistant in turn; see ChatWidget.AlternatesAppend and ChatWidget.NFTChatWidget.CompleteSend |
| ChatWidget.AlternatesAppend | artverse-archive/public/ChatWidget.js:474-516 | a message from whoever's turn it is keeps the conversation alternating |
| ChatWidget.NFTChatWidget.constructor | artverse-archive/public/ChatWidget.js:346-356 | closed, idle, and only the greeting |
| ChatWidget.NFTChatWidget.ToggleWidget | artverse-archive/public/ChatWidget.js:433-449 | the panel flips between open and closed; the conversation is untouched |
| ChatWidget.NFTChatWidget.CloseWidget | artverse-archive/public/ChatWidget.js:451-459 | the panel is closed; the conversation is untouched |
| ChatWidget.NFTChatWidget.BeginSend | artverse-archive/public/ChatWidget.js:461-477 | a request is posted exactly when the trimmed input is non-empty and none is in flight; the trimmed question is appended and loading starts; otherwise nothing changes |
| ChatWidget.NFTChatWidget.CompleteSend | artverse-archive/public/ChatWidget.js:479-521 | the reply for the outcome is appended and loading stops; questions and answers keep alternating |

## Left out

- Network, Kafka, PostgreSQL and S3 I/O are left out. Their results are parameters: `Response`, `FetchOutcome`, `WebhookOutcome`, the upload flag and `JobWorld`. The request timeouts (metadata_worker/src/main.rs:48 and :89) also bound reading the body: a timeout while sending is a failed request, and one while reading is an unparsable or unreadable body. Any of these is a possible `Response` value.
- SHA-256 and its hexadecimal rendering are the parameter `sha`, because a hash function's internals say nothing about the worker.
- Overlapping loads and stale React closures are not modelled: one load or one webhook call completes before the next starts. React batching and re-rendering are left out too.
- Console and stderr logging is left out, including the debug group in the normaliser; it changes no state.
- Error messages are modelled only as the error kind and the resolved URL.
- The DOM is replaced by the state it shows. Left out:
  - exact HTML markup, icons and CSS classes;
  - clearing the input box;
  - scrolling;
  - `renderMessages`, the list of bubbles with a "Thinking…" row while loading.
- Search.TokensFrom: its own contract states only that tokens are non-empty and that none are left exactly when only whitespace remains. What the tokens are is stated by `Search.TokensOfJoin` for space-separated bare words and by `Search.QuotedPhrase` for a quoted phrase, not for arbitrary mixtures.
- Message ids, timestamps and the timestamp in the webhook request body are left out; nothing reads them.
- `Text.Lower` folds only ASCII `A`–`Z`. JavaScript `toLowerCase` also folds other letters. This matters only for non-ASCII queries and names.
- `Catalog.NormalizeAttributes` keeps object entries in their stored order. JavaScript `Object.entries` lists integer-like keys first. The entries are taken to have distinct keys: the attributes come from a `jsonb` column (db/src/lib.rs:9-10), which never stores duplicate keys.
- Attribute array elements, media entries and record fields are assumed to have the types the code expects (strings, or absent). Values of other JSON types in those places are not modelled.
- Inside `String(value)`, a JSON number is carried as the text it was given; JavaScript number formatting is not modelled.
- `MetadataWorker.Extension` works on characters. Rust slices on bytes, and that agrees because `.` is ASCII.
- The job's JSON deserialisation and the consumer loop around `main` are left out. A job that does not deserialise is skipped before any plan is made.
- Insert conflicts (`ON CONFLICT DO NOTHING`) and failed inserts belong to the database layer. `PlanJob` lists the inserts attempted, which is also what happens when one of them fails.
- The event listener, the backfill script, the HTTP API, the database crate and the React components are not part of this model.
