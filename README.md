# Barcelona Guide ratings — a Dafny model of the client-side rating logic

Barcelona Guide is a Next.js app. Visitors rate places in Barcelona on a
rating contract on Base. The app has three pages that talk to the contract:

- the "my ratings" page (`pages/entries.tsx`);
- the web page (`pages/web.tsx`);
- the Farcaster mini-app page (`pages/frame.tsx`).

Almost everything else is UI. This project models the rating logic of these three pages and proves what each promises.

- **My ratings.** The page probes the connected account's rating of each place. It tries three read functions in a fixed order and stops at the first usable answer. For each place that has a rating, it reads the place's average. It then filters the rated places (all / 4 and up / 5) and sorts them by score, ascending or descending. Each entry is drawn with a clamped star string and a trend arrow.
- **Web page.** The page fills a table with the average of every place. A rating is a strictly sequential pipeline:
  1. read `getNextNonce(rater, placeId)`;
  2. build the EIP-712 `Rating` message with a deadline five minutes ahead;
  3. have the wallet sign it;
  4. send `submitRating`;
  5. reload the averages.

  Nothing catches an exception, so the first failing step ends the pipeline.
- **Mini-app page.** The page takes the account from the host wallet. It accepts only a first entry that is a `0x` string. It fills the same average table. A rating is a plain `ratePlace` transaction sent through the host's provider. While it is in flight, the place's buttons are disabled. After a successful send, only that place's average is re-read. The page's star renderer has no clamp.

Four conventions hold across the model:

- **Averages are x100 integers.** An average is kept as the contract's ×100 integer (the value `getAverageX100` returns), so 4.25 stars is 425. This is exact for the float arithmetic the pages do. Both the half-star boundary and the trend band fall on x100 values whose quotient by 100 is a dyadic fraction: `k.5` for the half star, `k.25` and `k.75` for the trend. Such values are represented exactly, and every other x100 value lies at least 0.01 away from a boundary.
- **Oracles.** The chain, the wallet and the mini-app provider are function-typed parameters. Each stands for one snapshot of its state. A second chain oracle, `after`, answers the reads made after a write.
- **JavaScript coercions.** `Number(x)` and truthiness are modelled over the shapes a read can return: bigint, integral number, NaN, null, undefined, boolean, string and array.
- **Traces.** Each page's rating records what it did, in order: reads, signature request, write or transaction, alerts, and the disabling marker. The proofs are stated over these traces.

Modules:

| file | module | models |
|---|---|---|
| `wrappers.dfy` | `Wrappers` | `Option` |
| `js_values.dfy` | `JsValues` | JavaScript values, `Number(x)`, truthiness |
| `contract.dfy` | `Contract` | call shapes, `getAverageX100`, the shared average table |
| `glyphs.dfy` | `Glyphs` | star strings |
| `typed_data.dfy` | `TypedData` | EIP-712 domain, `Rating` schema, message, type strings |
| `entries.dfy` | `Entries` | the "my ratings" page |
| `web.dfy` | `Web` | the web page |
| `frame.dfy` | `Frame` | the mini-app page |

## Model

| member | source | states |
|---|---|---|
| JsValues.ToNumber | pages/entries.tsx:93-94 | `Number(x)`: bigints and numbers keep their value. NaN and undefined give NaN. null, false, "" and `[]` give 0. An array of two or more elements gives NaN. |
| JsValues.ElementToNumber | pages/entries.tsx:94 | `Number([e])`, through the string form of the one-element array. `Number(out[0])` reaches it when `out[0]` is itself an array. A number keeps its value, null or undefined gives 0, and a boolean gives NaN. |
| JsValues.Truthy | pages/entries.tsx:111 | every array is truthy, and a string is truthy iff it is non-empty. Any other value is truthy iff its `Number` is neither 0 nor NaN, so 0, 0n, NaN, null, undefined and false are falsy. |
| JsValues.FalsyIsZeroOrNaN | pages/entries.tsx:111 | a falsy value never coerces to a non-zero number, so `Number(x100 \|\| 0)` differs from `Number(x100)` only by turning NaN into 0 |
| JsValues.SingletonArrayNumber | pages/entries.tsx:94 | wrapping a number, string or array in a one-element array keeps its `Number` value |
| Contract.AverageCall | pages/web.tsx:53-58 | the average read is `getAverageX100(placeId)` |
| Contract.AverageOrZero | pages/web.tsx:51-63 | the average is 0 when the read throws, and `Number(x100)` otherwise |
| Contract.AverageTable | pages/web.tsx:65-73 | the table has an entry for exactly the catalogue's place ids, and each entry is that place's average or 0 |
| Contract.AverageReads | pages/frame.tsx:77-89 | one average read per place, in catalogue order |
| Contract.Connected | pages/web.tsx:77 | `!address` is false iff an address is set and is not the empty string |
| Glyphs.Repeat | pages/entries.tsx:152 | `c.repeat(k)` has length k and holds only c |
| Glyphs.StarGlyphs | pages/entries.tsx:152 | the star string is `full` full stars followed by one half star iff requested, so its length is `full` plus the half star. It is never the dash. |
| TypedData.StructValues | pages/web.tsx:97-107 | the message values are listed in schema order, one per field |
| TypedData.BuildRating | pages/web.tsx:90-114 | the domain is ("BarcelonaRatings", "1", 8453, contract) and the primary type is `Rating`. The schema is rater, placeId, rating, nonce, deadline. The message has exactly those keys, and its values are in that order, with the nonce as read. |
| TypedData.RatingTypeString | pages/web.tsx:97-105 | the `encodeType` string is "Rating(address rater,uint256 placeId,uint8 rating,uint256 nonce,uint256 deadline)" |
| TypedData.DomainTypeString | pages/web.tsx:90-95 | the domain type string is "EIP712Domain(string name,string version,uint256 chainId,address verifyingContract)" |
| Entries.Candidates | pages/entries.tsx:78-83 | the probe calls are getUserRating, ratingOf and userRatings, in that order, each on (addr, placeId). None of them is an average read. |
| Entries.Usable | pages/entries.tsx:86-97 | a bigint or number yields its `Number`, and a non-empty array yields its head's. A throw, an empty array, null, undefined, a boolean or a string yields nothing. |
| Entries.FirstUsable | pages/entries.tsx:85-98 | the index of the first usable candidate: every earlier candidate is unusable |
| Entries.MyRating | pages/entries.tsx:77-100 | the rating is null iff no candidate is usable, and otherwise is some candidate's value |
| Entries.MyRatingCalls | pages/entries.tsx:85-98 | the calls made are a prefix of the candidates that ends at the first usable one. All three are tried only when the result is null. |
| Entries.ReadMyRating | pages/entries.tsx:77-100 | the probe loop returns the specified rating and makes exactly the specified calls |
| Entries.OnlySecondCandidateAnswers | pages/entries.tsx:85-97 | when only `ratingOf` answers, its value is used and `userRatings` is never called |
| Entries.ReadAverage | pages/entries.tsx:103-116 | the average is null when the read throws, or when a truthy value that is not a bigint coerces to NaN. A bigint or number keeps its value. Every falsy value gives 0, NaN and undefined included. |
| Entries.ClampedFull | pages/entries.tsx:150 | `max(0, min(5, floor(v)))` is at most 5. It is floor(v) between 0 and 5.99, 0 below 0, and 5 from 5 on. |
| Entries.AverageReadersAgree | pages/entries.tsx:103-116 | this page's average read agrees with the other pages' on every decoded integer. It differs on a throw, which gives null here and 0 there. |
| Entries.SafeGetPlaces | pages/entries.tsx:72-74 | the chunk is the first max(0, count) places |
| Entries.Kept | pages/entries.tsx:126 | `my && my > 0` holds iff the rating is present, is a number rather than NaN, and is positive |
| Entries.Collected | pages/entries.tsx:123-130 | an entry is kept for exactly the places whose rating is a positive number, and every kept score is positive |
| Entries.CollectedAppend | pages/entries.tsx:124-129 | the kept entries follow catalogue order |
| Entries.EntriesReads | pages/entries.tsx:124-129 | every read is a probe candidate of a chunk place, or the average of a kept place |
| Entries.AverageReadOnlyForKept | pages/entries.tsx:126-127 | an average is read only for a place that is kept |
| Entries.Admits | pages/entries.tsx:132-136 | "all" admits every score. "4plus" admits a score iff it is at least 4, and "5" iff it is 5, so every option admits a 5. |
| Entries.FilterEntries | pages/entries.tsx:132-136 | the filter keeps exactly the entries its option admits: "5" keeps my = 5, "4plus" keeps my ≥ 4, "all" keeps everything |
| Entries.FilterWithScore | pages/entries.tsx:132-136 | filtering keeps or drops all entries of one score together, in order |
| Entries.InsertPermutes | pages/entries.tsx:138-140 | inserting adds exactly one element |
| Entries.InsertWithScore | pages/entries.tsx:138-140 | inserting puts the new element in front of every entry with an equal score |
| Entries.InsertSorted | pages/entries.tsx:138-140 | inserting into a sorted list keeps it sorted |
| Entries.SortEntries | pages/entries.tsx:138-140 | the sort returns as many entries as it was given. SortEntriesCorrect fixes the order. |
| Entries.SortEntriesSorted | pages/entries.tsx:138-140 | the sorted list is ordered by score in the chosen direction |
| Entries.SortEntriesPermutes | pages/entries.tsx:138-140 | the sorted list is a permutation of the filtered list |
| Entries.SortEntriesStable | pages/entries.tsx:138-140 | entries with equal scores keep their relative order |
| Entries.SortEntriesMembers | pages/entries.tsx:138-140 | the sorted list holds exactly the entries of its input |
| Entries.SortEntriesCorrect | pages/entries.tsx:138-140 | the sort yields a sorted permutation of its input, and it is stable |
| Entries.MyRatingsView | pages/entries.tsx:118-146 | the list shown has no more entries than there are places in the chunk, and every entry shown has a positive score that the filter admits |
| Entries.MyRatingsViewCorrect | pages/entries.tsx:118-146 | the list shown holds exactly the rated places of the chunk that pass the filter. It is sorted by score in the chosen direction, with equal scores in catalogue order. |
| Entries.Stars | pages/entries.tsx:148-153 | null or 0 gives the dash, and only they do. Otherwise the string is C full stars followed by a half star iff v − C ≥ 0.5, where C is floor(v) clamped to [0, 5]. So below 6 stars it depicts the average rounded down to a half star, and a negative average gives the empty string. |
| Entries.TrendOf | pages/entries.tsx:230-238 | there is no trend without an average. Up iff my − avg > 0.25, down iff my − avg < −0.25, flat iff \|my − avg\| ≤ 0.25. |
| Entries.TrendMonotone | pages/entries.tsx:230-238 | a higher own score never lowers the trend, and a higher average never raises it |
| Entries.EntriesPage.constructor | pages/entries.tsx:60-64 | the page starts with no entries, not loading, count 6, descending order, filter "all" |
| Entries.EntriesPage.FetchEntries | pages/entries.tsx:118-146 | the entries become the filtered, sorted view of the first `count` places, and loading ends false. The reads made are exactly the probes plus the averages of kept places. |
| Entries.EntriesPage.ShowMore | pages/entries.tsx:271 | "show more" checks six more places |
| Web.Deadline | pages/web.tsx:82 | the deadline is floor(now / 1000 s) + 300 |
| Web.FetchAverage | pages/web.tsx:51-63 | 0 when the read throws, and `Number(x100)` otherwise |
| Web.SubmitOutcome | pages/web.tsx:83-121 | the pipeline stops at the nonce read iff that read throws. It stops at signing iff the wallet refuses the built message. It ends submitted only after a signature and a successful write, and fails at the write only after a signature. |
| Web.ReloadSteps | pages/web.tsx:65-73 | the reload reads the average of every place, in order |
| Web.SubmitSteps | pages/web.tsx:76-124 | The nonce read comes first. After a successful nonce read, the second step is the request to sign the message built with the nonce as read and the deadline. After a signature, the third step is the write that carries that signature. The first failure ends the pipeline: after a failed nonce read only that read happened, after a refused signature two steps, after a failed write three. Only after a successful write is every average reloaded. |
| Web.SubmitStepsOrder | pages/web.tsx:83-123 | A signature is requested only second, and only with the nonce as read. The write is sent only third, with the wallet's signature and the signed deadline. Averages are reloaded only after a successful write. Nothing alerts. |
| Web.WriteMatchesSignedMessage | pages/web.tsx:107-121 | the write passes the signed rater, placeId, rating and deadline in that order, drops the nonce, and appends the signature |
| Web.WebPage.constructor | pages/web.tsx:27-32 | the page starts in Russian, with no address, an empty table and not loading |
| Web.WebPage.LoadRatings | pages/web.tsx:65-73 | the table becomes the average table of the catalogue, and loading ends false. One read is made per place. |
| Web.WebPage.RatePlace | pages/web.tsx:76-124 | without an address, the alert alone. Otherwise the page runs the submission pipeline, and the table is reloaded iff the write went through. Otherwise the table is unchanged. |
| Frame.AcceptAccount | pages/frame.tsx:50-53 | an account is accepted iff the answer is a list whose first entry is a string starting with "0x", and the account is that entry |
| Frame.ResolveAddress | pages/frame.tsx:44-70 | the provider's account wins. The fallback's is used whenever the provider is not ready, throws, or has no acceptable first entry. The address is null iff neither answer has an acceptable first entry. A set address starts with "0x". |
| Frame.UnclampedStars | pages/frame.tsx:97-99 | floor(v) full stars with no clamp, followed by one half star iff the fraction is at least 0.5. The string depicts v rounded down to a half star. |
| Frame.RenderStars | pages/frame.tsx:95-100 | the dash iff the average is missing, NaN or 0, and a RangeError iff it is negative. Otherwise the unclamped stars, followed by " (" + v.toFixed(1) + ")". |
| Frame.StarsOfBothPages | pages/frame.tsx:95-100 | the two pages' stars agree for averages up to 5.99 and differ from 6 on. At 0 both show the dash. A negative average gives "" on one page and a RangeError on the other. |
| Frame.RateEvents | pages/frame.tsx:102-136 | Without an address, only the alert. Otherwise the place is marked busy first and unmarked last. With a ready provider, the second event is the transaction from the address to the contract, carrying `ratePlace(placeId, rating)` and value 0. After a successful send, the third event is the refresh read of that place. Nothing is sent when the provider is not ready, and no refresh happens without a successful send. The failure alert is shown iff the send did not succeed, just before the unmarking. |
| Frame.BusyWhileInFlight | pages/frame.tsx:113-134 | with an address, from the first event until the last, the rated place is the one in flight, so its buttons alone are disabled. After the last event nothing is in flight. Without an address, `sendingId` is left as it was. |
| Frame.Refreshed | pages/frame.tsx:121-129 | only the rated place's entry changes, to the new `Number(x100)`. A throwing refresh changes nothing. |
| Frame.FramePage.constructor | pages/frame.tsx:32-39 | the page starts in Russian, with no address, an empty map, not loading and nothing in flight |
| Frame.FramePage.AverageText | pages/frame.tsx:188 | an ellipsis while loading, the dash for a place missing from the map, and its stars otherwise |
| Frame.FramePage.RatingDisabled | pages/frame.tsx:200 | a place's buttons are disabled iff that place is the one in flight, so none are when nothing is in flight |
| Frame.FramePage.AtMostOneDisabled | pages/frame.tsx:200 | at most one place's buttons are disabled at any time |
| Frame.FramePage.Handshake | pages/frame.tsx:44-70 | the address becomes the resolved account |
| Frame.FramePage.LoadAverages | pages/frame.tsx:73-93 | the map becomes the average table of the catalogue, with 0 for a failed read, and loading ends false. One read is made per place. |
| Frame.FramePage.RatePlace | pages/frame.tsx:102-136 | The events are as specified, and `sendingId` ends as their `setSendingId` replay leaves it: untouched without an address, null otherwise, so no button stays disabled. Between the first and last event, the rated place is the one in flight. The map changes only after a successful send, and only at the rated place. |

## Left out

- Wallet discovery and connection are left out: `connectWallet` on the web page, and the `getAccounts` effect and connect button on the "my ratings" page. The address is an input. On the mini-app page, the answers of `eth_accounts` and of the fallback are inputs to the handshake, and `sdk.actions.ready()` is not modelled.
- The "my ratings" page's effect trigger is left out: `FetchEntries` is run for a given address. The check that an account is connected before fetching belongs to that trigger.
- Hashing, signing and ABI encoding are foreign library calls and are left out. The signature is whatever the wallet oracle returns. `encodeFunctionData` is the call it encodes (function name and arguments). The EIP-712 hashes are not computed: the model stops at the type strings and the member values they are computed from.
- JsValues.ToNumber: only integral numbers and NaN are kept, with no fractions, Infinity or precision loss of large bigints. Strings are parsed only as plain decimal digits: no sign, whitespace, hex or exponent. The contract returns unsigned integers, so the rest does not arise on these paths.
- Frame.RenderStars: `toFixed(1)` is a parameter from the x100 value to its text. Its rounding of binary fractions is not modelled.
- The alphabetical ordering of the mini-app page's tiles (`localeCompare`) is left out: it is locale-dependent and does not affect any rating state.
- Concurrency and React scheduling are left out. Each operation runs to completion. Several overlapping mini-app ratings, which would overwrite one another's `sendingId`, are not modelled.
- Web.WebPage.RatePlace: the final `loadRatings()` is not awaited in the source. The model runs it to completion before the rating returns.
- Console logging and the alert's display are left out. An alert is an event carrying its text.
- `data/places` is not part of this model: the catalogue is a parameter, and only the place ids are used.
- The code validates neither the score nor the address format on the web page. It does not serialise ratings, has no error taxonomy, and retries nothing. The model follows the code and adds none of these.
- Both star renderers mishandle a negative average. It is excluded by the contract, since ratings run from 1 to 5, and each renderer is modelled as written. The "my ratings" page gives the empty string, not the dash. The mini-app page throws a RangeError from `repeat`.
- The server routes (`pages/api/*`), the place detail pages and the layout and configuration files are rendering or unrelated writes, and are not part of this model.
