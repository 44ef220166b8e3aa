# aethersalon — a Dafny model of the record normalisers and page rules

The aethersalon site is a React front end with three Vercel serverless functions in front of
Airtable: `api/products.ts`, `api/events.ts` and `api/partners.ts`. Each function turns the
loosely typed Airtable records `{id, fields}` into a fixed product, event or partner shape. To
do that it uses:

- ordered lists of German and English field names, resolved with JavaScript `||` truthiness;
- URL extraction from attachment fields of unknown shape;
- integer and price parsing with defaults;
- positional ids next to the record ids.

The pages read these shapes with more fallback rules of their own:

- the event and product detail lookups by id or raw id;
- the picture lists with the main image first;
- the date-range label and maps link of an event card;
- the home page's "next three upcoming events";
- the lightbox and carousel index stepping;
- the password gate;
- the partner source of the partners grid.

This project models all of that as pure Dafny functions over an immutable JavaScript value
type, and proves what the code promises about it.

Modules, one per source unit, plus shared building blocks:

| module | models |
|---|---|
| `Wrappers` | `Option` |
| `Text` | JavaScript string built-ins: `\s`, `replace(/\s+/g, ' ')`, `trim`, `parseInt`, `parseFloat`, `replace(',', '.')`, `startsWith`, `includes`, `String(n)` |
| `Js` | parsed JSON values with ordered fields, truthiness, property access, optional chaining, `a || b` chains, `String(v)`, `new Date(v)`; host date parsing and German formatting are the fields of a `Host` parameter |
| `Seqs` | `find`, `slice(0, n)`, `Array.from(new Set(xs))` |
| `UrlScan` | the two URL regular expressions of the image extractors, leftmost greedy match |
| `Proxy` | the guard, upstream-failure mapping and record decoding the three handlers share |
| `Products`, `Partners`, `Events` | the three serverless functions |
| `Attachments` | the attachment and date helpers `api/events.ts` and `EventDetailsPage.tsx` both define |
| `PageData` | `find` over parsed JSON (which throws on `null`), page-load outcomes, `raw.fields || raw` |
| `EventDetails`, `ProductDetails`, `EventList`, `Home`, `PartnersGrid`, `PasswordGate` | the pages and components of the same name |
| `Cycle`, `Lightbox`, `Carousel` | index stepping with JavaScript's truncating `%`, the lightbox, the image carousel |

Network calls are replaced by their outcomes: a handler receives what each upstream `fetch`
produced (`Proxy.Fetch`) and returns, next to its response, the list of upstream calls it made.
A page receives the parsed body of each request, or `None` when the request failed. The clock is
a parameter `now`. Local storage is a map, or `None` when accessing it throws.

The event card's date-range separator is written in `src/components/EventList.tsx:104` as the
UTF-8 bytes of an em dash read back as Windows-1252 (`â€”`). `EventList.RangeSeparator` keeps it
as written.

## Model

| member | source | states |
|---|---|---|
| Js.Keys | api/partners.ts:54 | `Object.keys` has one key per field of an object, one per index of an array or string, and none for other values |
| Js.Elem | api/partners.ts:55 | `obj[key]` reads a field of an object; of an array or string, the element at a key that names an index, the length for `length`, and `undefined` otherwise |
| Js.KeysVisitEntries | api/partners.ts:54-55 | reading each key `Object.keys` lists visits the array elements, the string's characters, or (with distinct field names) the object's field values, in order |
| Js.NoIndexName | api/partners.ts:43 | a key that does not start with a digit names no array index |
| Js.HasLengthIsLengthTest | src/pages/EventDetailsPage.tsx:92 | the model's length test holds iff `v` is truthy and has a numeric `length` that is positive |
| Js.OrChain | api/products.ts:62-63 | an `a || b || ... || d` chain yields the first truthy operand, or the last operand `d` when none is truthy |
| Js.PickField | api/events.ts:40-41 | a fallback list of field names yields the value of the first truthy field, or the default when none is truthy |
| Js.AndPath | api/products.ts:28-31 | `first.thumbnails && first.thumbnails.large && first.thumbnails.large.url` agrees with the optional chain on truthiness, and on the value when truthy |
| Js.FirstHit | api/partners.ts:42-50 | the loop over field names returns the first truthy extraction in list order; it is `undefined` only when no field yields one |
| Js.FirstDefined | src/pages/Home.tsx:63-69 | `find` returns the first field that is neither `undefined` nor `null`, and gives nothing exactly when all listed fields are nullish |
| Seqs.Find | api/events.ts:162 | `find` returns an element that satisfies the test and has no earlier element that does; nothing is found iff no element passes |
| Seqs.FindFirst | api/events.ts:162 | the element at the first position satisfying the test is the one `find` returns |
| Seqs.Take | src/pages/Home.tsx:111 | `slice(0, n)` is a prefix of the list, of length `min(n, len)` for `n >= 0` |
| Seqs.FirstIndexOf | api/events.ts:92 | the position of the first occurrence of an element |
| Seqs.Dedup | api/events.ts:92 | `Array.from(new Set(xs))` has no repeats, keeps exactly the elements of `xs`, starts with `xs[0]`, and lists them in the order of their first occurrence in `xs` |
| Seqs.DedupOfDistinct | api/events.ts:92 | a list without repeats passes through the set unchanged |
| Seqs.DedupIdempotent | api/events.ts:92 | de-duplicating twice is de-duplicating once |
| Text.SkipSpaces | api/products.ts:49 | the result is a suffix of the input with no leading white space and the same non-space characters |
| Text.TrimEnd | api/products.ts:49 | the result is a prefix of the input, and only white space was removed from the end |
| Text.CollapseShape | api/products.ts:49 | after `replace(/\s+/g, ' ')` every white-space character is a single `' '`, no two are adjacent, and the other characters are kept in order |
| Text.IndexOf | api/products.ts:119 | the position found holds the character and no earlier position does; nothing is found iff the character does not occur |
| Text.ReplaceFirst | api/products.ts:119 | `s.replace(',', '.')` changes only the first `,`, keeps the length, and leaves every other character in place |
| Text.ParseInt | api/products.ts:104 | `parseInt(s, 10)` is a number iff, after white space and sign, `s` starts with a digit; the number is the leading run of digits, negated after a `-` |
| Text.ParseIntAfterSpaces | api/products.ts:104 | leading white space does not change what `parseInt` reads |
| Text.ParseIntOfSigned | api/products.ts:104 | `parseInt` of a sign, printed digits and non-digit text is the number, negated for `-` |
| Text.ParseIntOfNatToStr | api/products.ts:104 | `parseInt` reads back the printed digits of `n` whatever non-digit text follows |
| Text.ParseFloat | api/products.ts:119 | `parseFloat` gives a number iff the text, after white space and sign, starts with a digit or with `.` and a digit |
| Text.ParseFloatOfPointed | api/products.ts:119 | `parseFloat` of unsigned `digits.digits` is the whole part plus the fraction |
| Text.NatToStrInjective | api/events.ts:162 | two different positional ids never print as the same string |
| UrlScan.SchemeLen | api/products.ts:36 | the `https?://` prefix of a match is 7 or 8 characters long |
| UrlScan.RunEnd | api/products.ts:36 | `[^\s)]+` stops at the first stop character or at the end of the text |
| UrlScan.MatchAtIsRegexMatch | api/products.ts:36 | the computed anchored match is exactly the regular expression's match (scheme, non-empty maximal run of allowed characters), and there is none iff the expression cannot match there |
| UrlScan.Leftmost | api/products.ts:36 | the reported position has a match and no earlier position does; no position is reported iff no position has a match |
| UrlScan.FindUrlIsMatch | api/products.ts:51-52 | `s.match(re)[0]` sits in `s` at the leftmost matching position, is longer than `http://`, holds no stop character, and is matched entirely by the expression |
| UrlScan.UrlIn | api/products.ts:51-55 | `m ? m[0] : undefined` is `undefined` iff there is no match, and otherwise the (truthy) matched text |
| UrlScan.MatchStartsLowerHttp | api/partners.ts:26 | without the `i` flag a match starts with lower-case `http` |
| UrlScan.FindUrlAppend | api/partners.ts:25-26 | text that starts with white space, appended after `a`, cannot create or change a match in `a`; no match straddles the seam |
| UrlScan.FindUrlSkipSpaces | api/products.ts:49 | leading white space never changes the URL found |
| UrlScan.FindUrlTrimEnd | api/products.ts:49 | trailing white space never changes the URL found |
| UrlScan.FindUrlCollapse | api/partners.ts:25-26 | collapsing white space before matching never changes the URL found |
| UrlScan.FindUrlCollapseTrim | api/products.ts:49-52 | collapsing and trimming before matching never changes the URL found |
| Proxy.Fields | api/products.ts:59 | `r.fields || {}` is the fields when truthy, an empty object otherwise |
| Proxy.TableName | api/events.ts:11 | a set, non-empty table variable is used; otherwise the default table name |
| Proxy.Guard | api/events.ts:101-109 | a non-GET verb gets 405 with `Allow: GET`; a GET with any required variable unset gets 500; the request passes iff it is a GET with every variable set |
| Proxy.UpstreamFailure | api/events.ts:179-181 | a non-2xx upstream status is passed through with the body text as details; an exception becomes a 500 with its message |
| Proxy.DecodeRecords | api/events.ts:184-185 | `payload.records || []` yields one record per element, in order, with its id and fields; it throws for a null payload, a truthy non-array `records`, or a nullish element |
| Proxy.ListResponse | api/products.ts:150-177 | a list handler makes exactly one list call; it answers 200 iff the fetch succeeded and decoded, with the normalised records as body; a non-2xx upstream status is passed through |
| Products.NonEmptyStringOr | api/products.ts:27 | `first.url && typeof first.url === 'string'` keeps a non-empty string and rejects everything else |
| Products.ExtractFirstUrl | api/products.ts:20-56 | per shape: falsy values give `undefined`; an attachment array gives its first element's string `url`, else large thumbnail, else full thumbnail; strings and first-string arrays give the leftmost URL of the text; an object gives its string `url`; numbers and booleans give `undefined`; the result is always `undefined` or truthy |
| Products.ExtractedTextUrl | api/products.ts:34-38 | a URL extracted from text is a whole match of `https?:\/\/[^\s)]+`: longer than `http://`, with no white space or `)` |
| Products.Category | api/products.ts:66-70 | a truthy `Art des Produkts` is used as text; else the first element of a non-empty `Produktgruppe`; else `Unkategorisiert` |
| Products.Stock | api/products.ts:104 | a numeric `Bestand` is kept; anything else is printed and read by `parseInt`: its value when that reads a number, and 0 when it reads none |
| Products.StockOfDigits | api/products.ts:104 | a stock written as digits, with or without trailing text such as `3 Stück`, reads back as that number |
| Products.Manufacturer | api/products.ts:107-114 | first element of a non-empty `Herstellername` array, else of `Hergestellt von`, else a string `Herstellername`; absent exactly when none of these applies |
| Products.Price | api/products.ts:116-119 | a number is kept, zero included; a string gets its first `,` replaced and is parsed, with zero or unparsable meaning no price; any other type has no price |
| Products.PriceOfGermanDecimal | api/products.ts:119 | a German decimal such as `12,50` reads as 12.5, and `0,00` as no price |
| Products.NormalizeRecord | api/products.ts:58-136 | product `idx` has id `idx+1`, the record id and fields; its name is the first truthy name field or `Produkt <idx+1>`; its image comes from the first image field yielding a URL, else `undefined`; its other fields follow their fallback rules |
| Products.Normalize | api/products.ts:58 | one product per record, in order, with id `i+1` and the record's id |
| Products.Handler | api/products.ts:140-178 | refusals come before any upstream call; the handler needs all three variables; it answers 200 iff the single list fetch succeeded and decoded, with the normalised products |
| Partners.ExtractFromAttachment | api/partners.ts:13-30 | per shape: an attachment array gives `url || large || full` with no further fallback; a first string element is returned only when it starts with `http`; an object gives a truthy `url`; a string gives the leftmost case-sensitive URL; everything else gives `undefined` |
| Partners.ExtractedTextUrl | api/partners.ts:23-28 | a URL found in text starts with lower-case `http`, is longer than `http://`, and holds no white space, `)`, `"` or `'` |
| Partners.Website | api/partners.ts:37 | `Website[0]` when it is truthy, else the first truthy of `Website`, `Webseite`, `URL`; always `undefined` or truthy |
| Partners.ImageUrl | api/partners.ts:39-62 | the first listed image field that yields a URL; failing that, the first field of the record in key order that yields one; else `undefined` |
| Partners.ImageUrlOfList | api/partners.ts:39-62 | when the fields arrive as an array, the listed names read nothing and the key scan tries the elements in order: the image is the first element that yields a URL |
| Partners.NormalizeRecord | api/partners.ts:33-71 | the id is the record id, not the position; the name falls back to `Partner <idx+1>`; the description is the first truthy description field, else `''` |
| Partners.Normalize | api/partners.ts:32-73 | one partner per record, in order, keeping the record ids |
| Partners.Handler | api/partners.ts:75-108 | only the key and base id are required; the table defaults to `Partner`; it answers 200 iff the single list fetch succeeded and decoded |
| Attachments.Truthies | api/events.ts:47 | `filter(Boolean)` keeps exactly the truthy elements |
| Attachments.TruthiesAppend | api/events.ts:47 | the filter keeps order: it distributes over concatenation |
| Attachments.AttachmentUrl | api/events.ts:47 | an attachment gives `url`, else the large thumbnail, else the file name; a falsy attachment gives itself |
| Attachments.ExtractAttachments | api/events.ts:44-50 | `[]` for a falsy or non-array field; otherwise exactly the truthy attachment URLs, in order |
| Attachments.ExtractAttachmentsFirst | api/events.ts:44-55 | the first extracted picture is the URL of the first attachment that yields a truthy one |
| Attachments.ExtractAttachmentsOfUrls | api/events.ts:47 | attachments that all carry a `url` give exactly those URLs, none dropped |
| Attachments.LeadImage | api/events.ts:55 | the first main attachment, else the first gallery attachment, else `''` |
| Attachments.Gallery | api/events.ts:91-92 | the picture list has no repeats, starts with the main image when it is truthy, contains every gallery picture and nothing else, and after the main image keeps the gallery's order of first occurrence |
| Attachments.FormatMaybeDate | api/events.ts:60-72 | `''` for a falsy value; else the value (an array's first element) as a German date when it parses and formats, and as `String(value)` otherwise |
| Attachments.FormatMaybeDateUnparsable | api/events.ts:71 | an unparsable string comes back unchanged, also inside a one-element array |
| Events.EventDate | api/events.ts:20-38 | the date is `''` unless the chosen date field is a non-empty string; an unparsable string is returned unchanged, a parsable one formatted |
| Events.EventDateWithoutDate | api/events.ts:20-22 | a record with no truthy `Datum`, `datum` or `Date` field gets the date `''` |
| Events.Pictures | api/events.ts:52-55 | the main image is the first main attachment, else the first gallery one, else `''`; the picture list starts with it when truthy, holds every gallery picture once, nothing else, in gallery order |
| Events.NormalizeRecord | api/events.ts:14-97 | event `idx` has id `idx+1`, the record id and fields, `locationRaw == location`, and the title falls back to `Veranstaltung <idx+1>`; von and bis go through the date fallback |
| Events.Normalize | api/events.ts:13-14 | one event per record, in order, numbered from 1 |
| Events.NumberedIdsDistinct | api/events.ts:162 | printed positional ids are pairwise different, so an id segment picks out at most one position |
| Events.SegmentLength | api/events.ts:115 | `[^\/?#]+` stops at the first `/`, `?` or `#` |
| Events.RouteSegment | api/events.ts:114-117 | a segment is found iff the path starts with `/api/events/` followed by an allowed character; it is non-empty, free of `/?#`, and followed by the end or one of them |
| Events.RouteOfBuilt | api/events.ts:115 | the segment of `/api/events/<seg><rest>` is `seg` |
| Events.RecordIdIsNotPosition | api/events.ts:120 | a segment matching `^rec` never equals a printed position |
| Events.DirectRecord | api/events.ts:135 | the direct payload counts as a record iff it and its `fields` are truthy |
| Events.Locate | api/events.ts:162 | the event found matches by id or raw id and has no earlier match; none iff nothing matches |
| Events.PositionalLookup | api/events.ts:162 | segment `n` finds the `n`-th event unless an earlier raw id prints as `n` |
| Events.Lookup | api/events.ts:143-164 | the list fallback makes one list call and answers 200 with the first match or `null` iff the fetch succeeded and decoded |
| Events.Handler | api/events.ts:101-194 | refusals come first and make no call; without a segment the list is served; a `^rec` segment is fetched directly and answered from the record when it has fields; otherwise the list lookup follows, after the direct call when there was one |
| PageData.SearchFor | src/pages/EventDetailsPage.tsx:56 | `find` with a property-reading test returns the first passing element when no nullish element precedes it, throws at an earlier nullish element, and misses iff every element is non-nullish and fails |
| PageData.SearchIsFind | src/pages/EventDetailsPage.tsx:56 | on a list without nullish elements the search is plain `find` |
| PageData.SearchFirst | src/pages/ProductDetails.tsx:36-38 | the first passing element is found when nothing before it is nullish or passes |
| PageData.RawFields | src/pages/EventDetailsPage.tsx:78 | `raw.fields`, else `raw`, else `{}`; always truthy |
| EventDetails.FromSamples | src/pages/EventDetailsPage.tsx:58-62 | the sample fallback shows a matching sample, and fails with the error message iff no sample matches |
| EventDetails.Load | src/pages/EventDetailsPage.tsx:29-66 | a truthy `event` from the single endpoint wins; otherwise the list is searched; a failed or unreadable list falls back to the samples |
| EventDetails.LoadShowsMatch | src/pages/EventDetailsPage.tsx:41-57 | a shown event is truthy and came from the single endpoint or matches the route id |
| EventDetails.MainImage | src/pages/EventDetailsPage.tsx:88-91 | `event.mainImage`, else the first main attachment of the raw fields, else the first gallery attachment, else `''` |
| EventDetails.Images | src/pages/EventDetailsPage.tsx:92 | `event.images` is kept when it is an array passing `images && images.length > 0`; rendering throws when a non-array passes that test; otherwise the list has no repeats, starts with a truthy main image, holds exactly the gallery pictures and that image, in gallery order |
| EventDetails.OrganizerHref | src/pages/EventDetailsPage.tsx:148 | the link always starts with `http`: kept when it does, prefixed with `https://` otherwise |
| EventDetails.OrganizerLine | src/pages/EventDetailsPage.tsx:144-153 | no block for a falsy organizer; plain text without a website; a link with a string website; rendering throws for a truthy non-string website |
| EventDetails.DateLine | src/pages/EventDetailsPage.tsx:155-157 | the date line is shown iff von or bis is non-empty; it is von, the em-dash separator and bis when there is a bis, and von alone otherwise |
| EventDetails.Render | src/pages/EventDetailsPage.tsx:91-172 | the page renders iff the picture list and the organizer block do and none of the title, `date`, a truthy organizer and, when the `Ort:` line is shown, its location text is a plain object (React refuses those as children); it shows the pictures and organizer with the von/bis date line |
| EventList.FindRaw | src/components/EventList.tsx:72-80 | the first truthy raw field among the candidates, `undefined` when none is truthy |
| EventList.FormatVal | src/components/EventList.tsx:82-96 | `null` iff the value is falsy; non-strings (after taking an array's first element) are stringified; an unparsable string comes back unchanged |
| EventList.Label | src/components/EventList.tsx:101-110 | both ends: one date when equal, else `from <sep> to`; only a start: the start; only an end: `bis` and the end; neither: `event.date || ''`; non-empty whenever an end is shown |
| EventList.SameDayLabel | src/components/EventList.tsx:103 | equal formatted ends show one date, never a range |
| EventList.Candidate | src/components/EventList.tsx:133-141 | a field offers a maps link iff it is an array with a string first element or a string containing `http` |
| EventList.FirstCandidate | src/components/EventList.tsx:132-142 | the link comes from the first key that offers one; there is none iff no key does |
| EventList.MapLink | src/components/EventList.tsx:144-157 | a link is shown iff the first offered candidate is non-empty |
| EventList.EmptyCandidateHidesLaterLinks | src/components/EventList.tsx:132-144 | an empty first candidate stops the search and hides a valid link under a later key |
| EventList.DetailSegment | src/components/EventList.tsx:163 | the link uses `rawId` when truthy, `id` otherwise |
| EventList.DetailLinkFindsEvent | src/components/EventList.tsx:163 | the details page's id rule recognises the card's own event from its link segment |
| Home.DateSource | src/pages/Home.tsx:72-74 | the first non-nullish start field; if there is none, the first non-nullish date field; if what was found is falsy, `e.date || ''` |
| Home.EventTime | src/pages/Home.tsx:77-82 | an array stands for its first element; a falsy or unparsable value means no date |
| Home.KeepUpcoming | src/pages/Home.tsx:95-102 | every kept event is an input event with a readable date whose day is today or later, and the filter never grows the list |
| Home.KeepUpcomingComplete | src/pages/Home.tsx:95-102 | every input event with a readable date on or after today is kept, with its time value |
| Home.Insert | src/pages/Home.tsx:103-110 | inserting keeps the list in date order and adds exactly one element |
| Home.SortByTime | src/pages/Home.tsx:103-110 | the sorted list is in ascending date order and is a permutation of its input; `Home.SortStable` adds that ties keep their input order |
| Home.SortStable | src/pages/Home.tsx:103-110 | the sort is stable: the events sharing any one date come out in their input order |
| Home.InsertWithTime | src/pages/Home.tsx:103-110 | inserting an event places it behind every event already dated like it |
| Home.SortOfSorted | src/pages/Home.tsx:103-110 | a list already in date order is left unchanged, so the sort is stable on sorted input |
| Home.SortIdempotent | src/pages/Home.tsx:103-110 | sorting twice is sorting once |
| Home.ScheduledIsUpcoming | src/pages/Home.tsx:95-110 | every scheduled event is an input event with a readable date on or after today |
| Home.NextThree | src/pages/Home.tsx:111 | at most three events, the first `min(3, n)` of the schedule, in order |
| Home.NextThreeProperties | src/pages/Home.tsx:95-111 | the shown events are upcoming, in date order, and no upcoming event left out is earlier than the last one shown |
| Home.UpcomingEvents | src/pages/Home.tsx:85-118 | a failed load, a missing `events` array or a nullish event keeps or restores the first three samples; otherwise the next three; never more than three |
| Home.Featured | src/pages/Home.tsx:36-44 | the first six products of a successful load, nothing otherwise |
| ProductDetails.FromSamples | src/pages/ProductDetails.tsx:40-44 | the sample fallback matches on `id` alone, and fails with the error message iff no sample matches |
| ProductDetails.Load | src/pages/ProductDetails.tsx:28-48 | the first product matching by id or `rawId || ''` is shown; a miss is "not found"; a failed load or a throwing search falls back to the samples |
| ProductDetails.FoundByPosition | src/pages/ProductDetails.tsx:36-38 | the first matching product is shown when no nullish entry precedes it |
| ProductDetails.SelectedImage | src/pages/ProductDetails.tsx:57-61 | `product.image` when truthy, `''` otherwise |
| ProductDetails.Thumb | src/pages/ProductDetails.tsx:93 | an attachment gives `url`, else the large thumbnail, else `''` |
| ProductDetails.Thumbnails | src/pages/ProductDetails.tsx:90-96 | attachments from `Weitere Bilder`, else `Produkt-Bild`; each mapped, empty strings kept, capped at three; none gives three copies of `product.image`; a non-array with a length makes rendering throw |
| Cycle.JsRem | src/components/Lightbox.tsx:17 | JavaScript's `%` truncates: for a non-negative dividend it is the usual remainder, for a negative one the negated remainder of its absolute value; it stays below the divisor in size |
| Cycle.Next | src/components/Lightbox.tsx:17 | `(i + 1) % n` stays in range, moves one on, wraps the last index to 0, and is `NaN` for an empty list |
| Cycle.Prev | src/components/Lightbox.tsx:18 | `(i - 1 + n) % n` stays in range, moves one back, wraps 0 to `n - 1`, and is `NaN` for an empty list |
| Cycle.PrevNext | src/components/Lightbox.tsx:17-18 | in range, a step back undoes a step forward and the other way round |
| Cycle.NextFromNonNegative | src/components/ImageCarousel.tsx:41 | one forward step from any non-negative index lands in range, at `(i + 1) mod n` |
| Cycle.NextFromNegative | src/components/Lightbox.tsx:17 | a forward step from a negative index lands in range iff `i + 1` is a multiple of `n`, and otherwise stays negative |
| Cycle.Advance | src/components/ImageCarousel.tsx:41 | any number of forward steps keeps an index in range |
| Cycle.AdvanceAdd | src/components/ImageCarousel.tsx:41 | `a` steps then `b` steps are `a + b` steps |
| Cycle.FullCycle | src/components/ImageCarousel.tsx:41 | `n` forward steps return to the starting slide |
| Cycle.Displayed | src/components/Lightbox.tsx:38 | nothing is rendered for an empty list; otherwise the picture at an in-range index, and none outside |
| Lightbox.Open | src/components/Lightbox.tsx:10-12 | opening, or a new `startIndex`, resets the index to it |
| Lightbox.HandleKey | src/components/Lightbox.tsx:14-21 | Escape calls `onClose` and keeps the index; the right arrow steps forward and the left arrow back; other keys change nothing |
| Lightbox.PrevButton | src/components/Lightbox.tsx:28-31 | the previous button acts as the left arrow |
| Lightbox.NextButton | src/components/Lightbox.tsx:33-36 | the next button acts as the right arrow |
| Lightbox.PressAll | src/components/Lightbox.tsx:23-26 | any key sequence keeps an in-range index in range, and a closed lightbox stays closed |
| Lightbox.EscapeOnlyCloses | src/components/Lightbox.tsx:16 | Escape closes iff a callback was given and never moves the picture |
| Lightbox.ArrowsUndo | src/components/Lightbox.tsx:17-18 | right then left, or left then right, shows the same picture again |
| Lightbox.EmptyArrowIsNaN | src/components/Lightbox.tsx:17-18 | with no pictures an arrow key leaves the index `NaN` for good |
| Carousel.Step | src/components/ImageCarousel.tsx:39-95 | ticks happen only with more than one slide, and the buttons only with `showControls` too; a tick or next steps forward, prev steps back, and dot `i` jumps to `i` |
| Carousel.Run | src/components/ImageCarousel.tsx:41-46 | any run of inputs keeps an in-range index in range |
| Carousel.RunStaysInRange | src/components/ImageCarousel.tsx:36-46 | starting at 0, the index always names a slide |
| Carousel.SingleSlideStill | src/components/ImageCarousel.tsx:40 | a single slide never moves |
| Carousel.TickAfterShrink | src/components/ImageCarousel.tsx:41 | after the list shrinks below the index, the next tick brings it back into range, at `(i + 1) mod length` |
| Carousel.ActiveDots | src/components/ImageCarousel.tsx:97 | dot `i` is active iff `i` is the current index |
| PasswordGate.Mount | src/pages/PasswordGate.tsx:16-23 | authenticated at mount iff the stored flag is exactly `true` |
| PasswordGate.Submit | src/pages/PasswordGate.tsx:25-43 | no password configured: the not-configured error and nothing else changes; a match: authenticated, `true` stored under `as1889_auth`, error cleared; a mismatch: the incorrect-password error and nothing else changes |
| PasswordGate.SubmitKeepsAuth | src/pages/PasswordGate.tsx:12-45 | no submit ever logs out |
| PasswordGate.SubmitAuthenticates | src/pages/PasswordGate.tsx:27-39 | a submit authenticates iff a password is configured and the input equals it |
| PasswordGate.RememberedAfterReload | src/pages/PasswordGate.tsx:18-35 | after a successful submit, a reload with working storage is authenticated at once |
| PasswordGate.ForgottenWithoutStorage | src/pages/PasswordGate.tsx:17-38 | without local storage a reload shows the form again |
| PartnersGrid.Source | src/components/PartnersGrid.tsx:25-34 | a non-empty prop wins; else a non-empty context list (a missing provider counts as empty); else the samples |
| PartnersGrid.SourceNonEmpty | src/components/PartnersGrid.tsx:34 | the grid is never empty while the samples are not |
| PartnersGrid.Cards | src/components/PartnersGrid.tsx:23-36 | the cards are the first `min(count, len)` partners in order, `count` defaulting to 4 |
| PartnersGrid.DetailsHref | src/components/PartnersGrid.tsx:50 | a card's link is `/partners#` followed by the partner's section id `partner-<id>` |
| PartnersGrid.HrefsDistinguishPartners | src/components/PartnersGrid.tsx:50 | partners with different ids get different links |

## Left out

- Network, JSON parsing, response headers, `Cache-Control` and logging: handlers receive fetch outcomes and report the calls they make; pages receive parsed bodies.
- `Date` parsing, `Intl.DateTimeFormat('de-DE')`, `setHours(0, 0, 0, 0)` and printing of non-integer numbers: host library behaviour, passed in as the `Js.Host` functions.
- React effects, mount flags, loading states and timers: the carousel's `setInterval` is modelled as `Tick` inputs, not timed.
- IEEE floating point: numbers are exact reals, so `parseFloat` covers plain decimal notation only (no exponent, `Infinity` or hex), and precision beyond 2^53 is not modelled.
- Text.ParseInt: returns the exact integer for any length of digits, where JavaScript rounds beyond 2^53.
- Js.Keys: for objects, JavaScript lists integer-like keys first in ascending order; the model keeps insertion order for every object key, since Airtable field names are not integer-like. Arrays and strings are listed by index as in JavaScript.
- Strings are sequences of Unicode code points, where JavaScript strings are UTF-16 code units: `Js.Keys`, `Js.Elem` and string lengths count a character outside the Basic Multilingual Plane (an emoji, say) once where JavaScript counts two. No rule modelled here depends on that difference.
- NaN inside values: JSON cannot carry it, so `Js.Value` has none. The lightbox and carousel index is the one place it arises, and `Cycle.Index` models it there.
- `Set` deduplication compares strings by value; objects are compared structurally here, not by identity.
- Js.HasLength: a string reads its length from its characters and an object from a numeric `length` field. JavaScript's `>` converts a non-numeric `length` with ToNumber, so `{"length": "2"}`, `{"length": true}` or `{"length": [3]}` pass `v.length > 0`; the model treats such a field as absent, so for such an object `EventDetails.Images` gives the gallery and `ProductDetails.Thumbnails` three copies of the image, where the page throws at `map`. Host objects with a `length` getter are not modelled either.
- EventDetails.Images: inherits the `Js.HasLength` gap: an object whose `length` is positive only after ToNumber gives the gallery here, where the page throws.
- ProductDetails.Thumbnails: inherits the `Js.HasLength` gap: such an object gives three copies of the image here, where the page throws.
- EventDetails.OrganizerLine: `startsWith` on a non-string website is modelled as a throw, since only strings have it; a value with its own `startsWith` is not modelled.
- The event details page's description HTML and the `Ort:` line's link target and maps URL (`src/pages/EventDetailsPage.tsx:117`, `164-165`), and `encodeURIComponent` in upstream URLs: pure rendering or string encoding with no rule beyond what is shown.
- PartnersGrid.Cards: a non-integer `count` is not modelled (it is an integer prop in every caller).
- The bundled sample data (`src/data/partners.ts` and the sample events and products) is a parameter, not its literal contents.
- The handlers fetch a single page (`pageSize=100`), ignore the query string, and keep the manufacturer as the first linked id or name without resolving it; the model does the same, so there is no pagination or name lookup to model.
- Rendering-only components and pages (header, footer, grids, static pages, routing) hold no rule to state.
