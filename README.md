# Real-estate feed importer: `importarImoveis`

This project models `importarImoveis` in `main.js`, the routine that
replaces the `imoveis` table with the listings of an uploaded
`ListingDataFeed` XML document, and proves properties of the model.

The routine works in three layers.

- **The listing normaliser** is the `listings.forEach` callback. It turns one
  parsed `<Listing>` into the twelve column values of a row. Its steps are:
  - the property-type table, with a pass-through default;
  - the transaction-type labels;
  - `Number(...) || 0` for counts, and `Number(v?._) || Number(v) || 0` for
    the garage count and the areas;
  - the parking-count regular expression, applied to the title when the
    structured count is 0;
  - the price: `parseFloat`, list price before rental price;
  - the area: living area before lot area;
  - the link, with every `+` rewritten as `-`;
  - four `toUpperCase` calls.

  Any of the method calls can throw a `TypeError` when the value is not a
  string. The model makes the normaliser a total function on parsed listings,
  `Mapping.Normalize`. It returns either the row or the first field whose call
  throws, in the source's evaluation order. (Mapping is the model's module
  name: in `Mapping.Normalize`, the part before the dot names the module.)
- **The batch builder** is the loop that pushes twelve bound values and one
  placeholder group `($12i+1, ..., $12i+12)` per listing. It is the
  imperative method `Batch.BuildBatch`, proved against the functional
  specification `Batch.ForEach`. A model of how the database binds the
  multi-row `INSERT` (`Batch.Bind`) is proved to store exactly the normalised
  rows, in order.
- **The replace-all loader** issues `BEGIN`, `TRUNCATE TABLE imoveis RESTART
  IDENTITY`, the `INSERT` when there is at least one value, and `COMMIT`, or
  `ROLLBACK` on any throw:
  - `Loader.Database` is a class for the client session. It holds the
    committed table, the transaction's working table, and whether a
    transaction is open.
  - `Loader.Import` is the routine itself.
  - `Loader.ReplaceAll` is its specification as a function of the document,
    the statements the server rejects, and the table before the import. The
    all-or-nothing, idempotence and rollback properties are proved about
    `ReplaceAll`.

Modules follow those layers:
- `Feed`: the shapes xml2js produces (`Raw` is undefined, a string, or an
  object with `_` and attributes).
- `Text`: `\s`, `toUpperCase`, `replace(/\+/g, '-')`.
- `JsNumber`: `Number` and `parseFloat` on decimal literals.
- `Parking`: the regular expression, given twice, as a declarative match
  relation and as a scanner, with proofs that they agree.
- `Mapping`, `Batch` and `Loader`, as above.

Interfaces to the outside are parameters of the model:
- Reading and parsing the file is the `Feed.Document` the import receives.
  `Unreadable` stands for a read or parse failure.
- Database server failures are the set `rejects` of statements the server
  refuses. This covers a lost connection, a timeout, a value of the wrong
  column type, and too many parameters.

The model follows the code, including where it behaves other than one might
expect of an importer:
- A listing without neighbourhood or city gets no dedicated mapping error.
  The code throws a `TypeError` from `toUpperCase` on `null`, which is caught,
  rolled back and re-thrown. The model reports it as
  `MappingFailed(ListingError(index, field))` and leaves the table unchanged.
- Counts, price and area are not checked for sign: `"-3"` gives -3
  (`Mapping.NegativeCountExample`), and `Mapping.DecimalMeasure` keeps a
  negative area.
- A truthy list price that does not parse, such as `R$ 450000`, gives a price
  of 0, and the rental price is not consulted (`Mapping.UnparseablePrice`).
- Only a positive living area wins over the lot area.

There is one exception, a bug listed under "## Findings". The code rejects a
feed with exactly one listing, or with none. `Loader.ReplaceAll` and
`Loader.Import` do not follow it there. They use the corrected reading
`Loader.ListingsOf`, which gives such a feed one listing or none.
`Loader.ReplaceAllAsWritten` is the import as written. It agrees with
`ReplaceAll` everywhere else (`Loader.AsWrittenAgreesExceptShortFeeds`).

## Model

| member | source | states |
|---|---|---|
| Feed.OrNull | main.js:51-52 | `v \|\| null`: a truthy field is kept, a falsy one (undefined, `""`) becomes null |
| Text.ToUpper | main.js:147-148 | `toUpperCase` keeps the length and maps each character to its upper case |
| Text.UpperCharIdempotent | main.js:147-148 | upper-casing a character twice is upper-casing it once |
| Text.ToUpperIsUpper | main.js:147-148 | every upper-cased string is a fixed point of `toUpperCase` |
| Text.UpperCharAscii | main.js:147-148 | ASCII lower-case letters become their capitals; other ASCII characters are unchanged |
| Text.UpperApartamento | main.js:56-57 | the label `Apartamento` is stored as `APARTAMENTO` |
| Text.UpperAluguel | main.js:92-93 | the label `Aluguel` is stored as `ALUGUEL` |
| Text.UpperVenda | main.js:90-91 | the label `Venda` is stored as `VENDA` |
| Text.DashForPlus | main.js:135 | the rewrite keeps the length and replaces each `+` by `-`, leaving every other character in place |
| Text.DashForPlusRemovesPlus | main.js:135 | no `+` survives the global rewrite |
| Text.DashForPlusIdempotent | main.js:135 | a link without `+` is unchanged, so rewriting twice is rewriting once |
| Text.DashForPlusExample | main.js:134-136 | `imovel+venda+123` becomes `imovel-venda-123` |
| JsNumber.DigitRunEnd | main.js:101 | the digit run starting at `i` is maximal: all digits up to `j`, and a non-digit or the end at `j` |
| JsNumber.TrimStart | main.js:118 | only leading white space is removed, and the result is a suffix starting with a non-space |
| JsNumber.TrimEnd | main.js:96 | only trailing white space is removed, and the result is a prefix ending with a non-space |
| JsNumber.Number | main.js:96-131 | no contract of its own (`Number(s)` is a total function from text to a number or NaN); specified by JsNumber.NumberNaN, JsNumber.DigitStringParses, JsNumber.SignedIntegerParses, JsNumber.SignedDecimalParses, JsNumber.WholeLiteral and JsNumber.NumberRejectsTrailingText |
| JsNumber.ParseFloat | main.js:115-124 | no contract of its own (`parseFloat(s)` as a total function); specified by JsNumber.ParseFloatNaN, JsNumber.DigitStringParses, JsNumber.SignedDecimalParses, JsNumber.WholeLiteral and JsNumber.ParseFloatIgnoresTrailingText |
| JsNumber.ScanDecimal | main.js:118 | a literal is read exactly when the text starts, after an optional sign, with a digit or with a point and a digit; otherwise the result is NaN; a literal read is non-empty and lies within the text; its value is given by JsNumber.ScanInteger and JsNumber.ScanFraction |
| JsNumber.ScanUnsigned | main.js:118 | the unsigned part is read exactly when a digit, or a point followed by a digit, stands at the position, and it then ends after that position and within the text |
| JsNumber.ParseFloatNaN | main.js:118-119 | `parseFloat` gives NaN exactly when the text after its leading white space does not start with a literal |
| JsNumber.NumberNaN | main.js:96-97 | `Number` gives NaN for a text that is not all white space and does not start, after white space, with a literal |
| JsNumber.ScanDigits | main.js:118 | a digit run followed by a character that cannot extend a literal reads as exactly those digits and their value |
| JsNumber.ScanInteger | main.js:96-118 | a digit run with an optional `+` or `-`, followed by a character that cannot extend a literal, reads as the digits' value, negated after `-` |
| JsNumber.ScanFraction | main.js:96-131 | a literal `[+-]digits.digits`, either digit run possibly empty but not both, followed by a non-digit, reads as the integer digits' value plus the fraction digits' value, negated after `-` |
| JsNumber.SignedIntegerParses | main.js:96-97 | `Number` and `parseFloat` read a whole signed integer such as `-3` as its signed value |
| JsNumber.SignedDecimalParses | main.js:96-131 | `Number` and `parseFloat` read a whole signed decimal such as `85.5` or `-0.25` as its signed value |
| JsNumber.WholeLiteral | main.js:96-118 | a literal read to its end, with no white space around it, is read alike by `Number` and `parseFloat` |
| JsNumber.DigitsValueExample | main.js:118 | `450000` denotes 450000 |
| JsNumber.DigitStringParses | main.js:96-97 | both `Number` and `parseFloat` read a plain digit string as the integer it denotes |
| JsNumber.ParseFloatIgnoresTrailingText | main.js:118-119 | `parseFloat` reads the leading digits and ignores trailing text that cannot continue a decimal literal, e.g. `450000 BRL` (exponents are left out, see JsNumber.ParseFloat under Left out) |
| JsNumber.NumberRejectsTrailingText | main.js:96-97 | `Number` gives NaN for digits followed by text that is not white space |
| Parking.SkipSpaces | main.js:101 | `\s*` stops at the end of the longest run of white space |
| Parking.TailEnd | main.js:101 | no contract of its own (the greedy scanner for `\s*vaga[s]?\s*(de\s*)?garagem`); specified against the pattern Parking.TailMatch by Parking.TailEndSound and Parking.TailEndComplete |
| Parking.MatchAt | main.js:100-102 | no contract of its own (a predicate: the whole pattern matches at `p` with group 1 spanning the text up to `e`); it is the reference definition that Parking.ScanAtIsMatchAt, Parking.MatchAtIsScanned and Parking.ScannedIsMatchAt relate the scanner to |
| Parking.ScanAt | main.js:100-102 | no contract of its own (where a match at `p` captures up to); specified by Parking.ScanAtIsMatchAt, both directions |
| Parking.ParkingFromTitle | main.js:99-105 | no contract of its own (`Number(vagasMatch[1])` of the first match, or no count); specified by Parking.ParkingFromTitleIsFirstMatch and Parking.TitleExample |
| Parking.FirstMatch | main.js:100-102 | the scanner reports the leftmost position where the pattern matches, and no match where it reports none |
| Parking.SkipSpacesToLetter | main.js:101 | white space that ends at a letter ends where `\s*` stops |
| Parking.TailEndSound | main.js:101 | where the scanner finds `\s*vaga[s]?\s*(de\s*)?garagem`, the pattern matches |
| Parking.TailEndComplete | main.js:101 | wherever the pattern's tail matches, the scanner finds it and ends at the same place |
| Parking.TailSplitScanned | main.js:101 | any way of splitting a tail match is the one the greedy scanner follows |
| Parking.VagaEndsAt | main.js:101 | the optional `s` of `vaga[s]?` is taken exactly when it is present |
| Parking.SpacesEndAt | main.js:101 | both inner `\s*` runs end where the greedy scanner stops them |
| Parking.NothingLeftBeforeDe | main.js:101 | an `s` cannot stand between `vaga` and `(de\s*)?garagem` |
| Parking.TailMatchStart | main.js:101 | the pattern's tail starts with white space or a `v`, never a digit, so `(\d+)` never backtracks |
| Parking.MatchAtIsScanned | main.js:100-102 | every match of the pattern at `p` is the one the scanner reports |
| Parking.ScannedIsMatchAt | main.js:100-102 | every match the scanner reports is a match of the pattern |
| Parking.ScanAtIsMatchAt | main.js:100-102 | the scanner reports a capture ending at `e` if and only if the pattern matches at `p` with group 1 spanning the text up to `e` |
| Parking.ParkingFromTitleIsFirstMatch | main.js:99-105 | the title gives no count exactly when the pattern matches nowhere; otherwise the count is the value of group 1 at the leftmost match |
| Parking.TitleExample | main.js:100-104 | `2 vagas de garagem` gives 2 |
| Parking.TitleExampleTail | main.js:101 | in `2 vagas de garagem` the pattern's tail runs from position 1 to the end |
| Mapping.MapPropertyType | main.js:52-85 | a listed category becomes its label; anything else, objects and null included, passes through |
| Mapping.PropertyTypeTable | main.js:55-82 | the nine categories and their labels |
| Mapping.LabelsNonEmpty | main.js:55-82 | no label is the empty string |
| Mapping.PropertyTypeLabelsAreFinal | main.js:55-85 | mapping an already mapped value changes nothing, and no two categories share a label |
| Mapping.MapTransactionType | main.js:89-94 | `For Sale` becomes `Venda`, `For Rent` becomes `Aluguel`, and anything else passes through |
| Mapping.OrZero | main.js:96 | `n \|\| 0` keeps a non-zero number and turns 0 and NaN into 0 |
| Mapping.Count | main.js:96-97 | a count is non-zero exactly when `Number` gives a non-zero number, and it is then that number; objects count 0 |
| Mapping.CountOfDigits | main.js:96-97 | a count written as digits is the integer they denote |
| Mapping.NegativeCountKept | main.js:96-97 | a count written as `-` and digits, such as `-3`, is stored as the negated digits' value, not clamped at 0 |
| Mapping.NegativeCountExample | main.js:96-97 | `Number("-3") \|\| 0` is -3 |
| Mapping.UnparseableCount | main.js:96-98 | a count or measure whose text is not all white space and does not start, after white space, with a literal is 0 |
| Mapping.UnparseableCountExample | main.js:96 | `Number("Consulte") \|\| 0` is 0 |
| Mapping.Measure | main.js:98-131 | the text payload of an object counts when it is a non-zero number; a string counts as `Number` reads it; anything else counts 0 |
| Mapping.MeasureOfNumber | main.js:128-131 | a string that `Number` reads as a number measures that number, 0 included |
| Mapping.DecimalMeasure | main.js:128-131 | an area written as a decimal literal `[+-]ds.fs` is the value of its integer and fraction digits, negated after `-` |
| Mapping.DecimalMeasureExample | main.js:128-131 | an area of `85.5` is 85.5 |
| Mapping.PriceOf | main.js:116-124 | an object is read by `parseFloat` of its `_`, a string by `parseFloat` of itself, and NaN or absence gives 0 |
| Mapping.SelectPrice | main.js:108-125 | a truthy list price wins even if it does not parse; the rental price is read only without one; with neither the price is 0 |
| Mapping.DigitPriceWins | main.js:115-119 | a list price of digits followed by text that cannot continue a decimal literal, attributed or not, is the integer the digits denote, whatever the rental price (exponents are left out, see JsNumber.ParseFloat under Left out) |
| Mapping.UnparseablePrice | main.js:115-124 | a price text that does not start, after white space, with a literal gives 0, as a string or as an object's `_`; as a truthy list price it still wins over the rental price |
| Mapping.UnparseablePriceExample | main.js:115-119 | a list price of `R$ 450000` is stored as 0 whatever the rental price |
| Mapping.AttributedPriceExample | main.js:115-119 | `{_: "450000", currency: "BRL"}` as list price gives 450000 |
| Mapping.SelectArea | main.js:128-132 | a positive living area wins, otherwise the lot area; a positive area is one of the two |
| Mapping.ParkingCount | main.js:98-106 | without a truthy title or with a non-zero structured count, the count stands; otherwise a string title gives its first match's number (0 without a match), and an object title throws at `Title` |
| Mapping.LinkOf | main.js:134-136 | a falsy URL gives null; a non-empty string gives the string with each `+` replaced by `-`, which keeps its length and non-`+` characters and has no `+`; an object throws at `DetailViewUrl` |
| Mapping.UpperText | main.js:145-158 | `toUpperCase` succeeds exactly on strings, giving an upper-case string of the same length; anything else throws at the given field |
| Mapping.Normalize | main.js:48-158 | no contract of its own (the `forEach` callback as a total function giving a row or the first throwing field); specified by Mapping.NormalizeFields, Mapping.NormalizeSucceeds, Mapping.NormalizeReportsFirstFault, Mapping.NormalizedRowIsWellFormed and Mapping.MissingLocationThrows |
| Mapping.NormalizeFields | main.js:49-158 | a produced row holds the title or null, the mapped and upper-cased types, the counts, price, area and link as computed, the upper-cased neighbourhood and city (both present strings), and the listing id as given |
| Mapping.NormalizeSucceeds | main.js:48-158 | the callback completes exactly when every throwing call is made on a string |
| Mapping.NormalizeReportsFirstFault | main.js:99-156 | when the callback throws, the reported field's call fails and every call evaluated before it succeeds |
| Mapping.NormalizedRowIsWellFormed | main.js:145-158 | every row has upper-case type, purpose, neighbourhood and city, non-empty type, neighbourhood and city, no `+` in the link, and never an empty title |
| Mapping.MissingLocationThrows | main.js:112-156 | a listing with a missing or empty neighbourhood or city throws, and a missing neighbourhood is reported no later than the neighbourhood call |
| Mapping.PropertyTypeStored | main.js:52-147 | `Residential / Apartment` is stored as `APARTAMENTO`; an unlisted category is stored as itself, upper-cased |
| Mapping.TransactionTypeStored | main.js:89-148 | `For Rent` is stored as `ALUGUEL` and `For Sale` as `VENDA` |
| Mapping.ParkingFromTitleExample | main.js:98-105 | with no structured garage count, the title `2 vagas de garagem` gives 2 spaces |
| Mapping.LinkExample | main.js:134-136 | the link `imovel+venda+123` is stored as `imovel-venda-123` |
| Batch.RawOf | main.js:145-158 | every non-numeric parameter reads back as a feed value |
| Batch.Params | main.js:145-158 | twelve values per listing in column order: type, purpose, neighbourhood and city as strings, and the five figures as numbers |
| Batch.RowOfParams | main.js:145-158 | the twelve values pushed for a row are stored as exactly that row |
| Batch.Group | main.js:138-143 | the group of listing `i` is `$12i+1` to `$12i+12` in order |
| Batch.Groups | main.js:138-143 | after `n` listings there are `n` groups, and group `i` is listing `i`'s |
| Batch.Flatten | main.js:145-158 | after `n` rows there are exactly `12n` values |
| Batch.FlattenSnoc | main.js:145-158 | pushing a row appends its twelve values and nothing else |
| Batch.FlattenAt | main.js:138-158 | values `12i` to `12i+11` are row `i`'s |
| Batch.GroupsPartition | main.js:138-143 | the groups of `n` listings use `$1` to `$12n`, each once: in range, no number twice, every number at its slot |
| Batch.Lookup | main.js:177-179 | a placeholder group selects as many values as it has numbers |
| Batch.Bind | main.js:162-180 | a bound `INSERT` stores one row per placeholder group |
| Batch.LookupBlock | main.js:138-158 | group `i` selects values `12i` to `12i+11` |
| Batch.LookupGroup | main.js:138-158 | group `i` of a built batch selects exactly row `i`'s values |
| Batch.BindPrefix | main.js:162-180 | the first `m` groups bind to the first `m` rows |
| Batch.BindBuilt | main.js:138-180 | the `INSERT` of a built batch stores exactly the normalised rows, in feed order |
| Batch.ForEach | main.js:48-159 | on success one row per listing; on failure the failing listing is one of them |
| Batch.ForEachRows | main.js:48-159 | on success row `i` is the callback's row for listing `i` |
| Batch.ForEachFirstFault | main.js:48-159 | on failure the callback throws for the reported listing and field, and returns a row for every earlier listing |
| Batch.ForEachFailsAt | main.js:48-159 | when every earlier listing gives a row and listing `i` throws, the run fails at `i` with that field |
| Batch.ForEachSucceedsIff | main.js:48-159 | the loop completes exactly when the callback returns a row for every listing |
| Batch.ForEachSingle | main.js:48-159 | a single listing that gives a row gives exactly that one row |
| Batch.ForEachNormalizeSucceeds | main.js:48-159 | all listings normalise exactly when every call of every listing is made on a string |
| Batch.BuildBatch | main.js:45-159 | for any callback (the source's is `Mapping.Normalize`), the loop succeeds exactly when every listing normalises; it then holds the `n` placeholder groups and the rows' values in order, and otherwise it reports the first failing listing and field |
| Loader.ListingsAsWritten | main.js:43-48 | `forEach` is reached only when the parser produced an array, and it iterates that array; otherwise the import fails |
| Loader.ListingsOf | main.js:43-48 | no listing gives none, a single listing gives that one, and an array gives its items |
| Loader.SingleListingFeedRejected | main.js:43-48 | a feed with one listing or with none is rejected as written, though its listings are usable |
| Loader.ListingsOfAgrees | main.js:43-48 | where the code accepts the parser's output, the corrected reading gives the same listings |
| Loader.ReplaceAll | main.js:30-189 | no contract of its own; the outcome and committed table of one import under the corrected reading of feeds with one listing or none (listings read by Loader.ListingsOf); specified by Loader.AllOrNothing, Loader.ImportIdempotent, Loader.ValidFeedImports, Loader.EmptyFeedEmptiesTable, Loader.MissingLocationRollsBack and Loader.UnreadableFeedRollsBack, and implemented by Loader.Import |
| Loader.ReplaceAllAsWritten | main.js:30-189 | no contract of its own; the import as written, listings read by Loader.ListingsAsWritten; related to Loader.ReplaceAll by Loader.AsWrittenAgreesExceptShortFeeds and Loader.SingleListingImportRejected |
| Loader.Load | main.js:45-189 | no contract of its own; the `forEach` loop, the guarded `INSERT` and the `COMMIT` shared by both readings; its properties are stated through Loader.ReplaceAll by Loader.AllOrNothing and Loader.ValidFeedImports |
| Loader.AsWrittenAgreesExceptShortFeeds | main.js:30-189 | the import as written equals the corrected one except on a parsed feed with no listing or one, which it rolls back, table unchanged, with `NotAList` once `BEGIN` and `TRUNCATE` succeed |
| Loader.SingleListingImportRejected | main.js:30-189 | a feed with one normalisable listing is rolled back as written, where the corrected import stores its row |
| Loader.AllOrNothing | main.js:30-189 | under the corrected reading (Loader.ReplaceAll), a failed import leaves the table as it was; a successful one holds exactly one normalised row per listing, in order, and reports their number |
| Loader.ImportIdempotent | main.js:32-185 | under the corrected reading (Loader.ReplaceAll), a successful import does not depend on the previous table, so importing the same feed again changes nothing |
| Loader.ValidFeedImports | main.js:30-185 | under the corrected reading (Loader.ReplaceAll, listings read by Loader.ListingsOf), a readable feed whose every call gets a string imports one row per listing when the server accepts every statement |
| Loader.EmptyFeedEmptiesTable | main.js:161-185 | under the corrected reading of a feed without listings, no `INSERT` is issued, the table is emptied and the import commits, even against a server that would reject the `INSERT` |
| Loader.MissingLocationRollsBack | main.js:112-189 | under the corrected reading (Loader.ReplaceAll), a listing without neighbourhood or city fails the import and the table keeps what it held; once `BEGIN` and `TRUNCATE` succeed, the error is the mapping error of that listing or an earlier one |
| Loader.UnreadableFeedRollsBack | main.js:34-189 | stated for Loader.ReplaceAll (both readings agree on an unreadable feed, see Loader.AsWrittenAgreesExceptShortFeeds), an unreadable feed fails the import and the table keeps what it held; once `BEGIN` and `TRUNCATE` succeed, the error is `FeedUnreadable` |
| Loader.Database.constructor | main.js:27 | a fresh session sees the stored table, outside any transaction |
| Loader.Database.Begin | main.js:30 | `BEGIN` opens a transaction over the committed table unless the server rejects it |
| Loader.Database.Truncate | main.js:32 | `TRUNCATE` empties the working table only, unless rejected |
| Loader.Database.Insert | main.js:161-180 | the `INSERT` appends the bound rows to the working table, unless it is rejected or a placeholder does not bind |
| Loader.Database.Commit | main.js:183 | `COMMIT` makes the working table the committed one and closes the transaction, unless rejected |
| Loader.Database.Rollback | main.js:186-187 | `ROLLBACK` discards the working table and closes the transaction; the committed table is untouched |
| Loader.Import | main.js:26-193 | the routine leaves the committed table and returns the outcome that `ReplaceAll` specifies (with the corrected reading of one- and no-listing feeds), and never leaves a transaction open |

## Left out

- The HTTP endpoint, the multer upload, the 50 MB limit and the deletion of
  the uploaded file (main.js:18-22, 195-220) are not modelled. They are
  transport around the import.
- The connection pool and its configuration (main.js:10-16, 27) are left out,
  and so is `client.release()` (main.js:190-192). The session is a
  `Loader.Database` object.
- SQL is not modelled. The `INSERT` is modelled only by how it binds
  placeholders to values (`Batch.Bind`). Column types, the parameter limit
  and server-side failures are folded into the set of rejected statements.
- A failing `ROLLBACK` is not modelled. Rolling back is assumed to succeed.
- Concurrent imports are not modelled. The model has one session, so two
  uploads whose TRUNCATE and INSERT run at the same time in separate
  transactions, and their locking, are outside it.
- Reading the file and xml2js parsing (main.js:34-42) are not modelled, and
  neither is namespace stripping (main.js:24). The parsed document is an
  input. Every read or parse failure is `Unreadable`, and a missing
  `ListingDataFeed.Listings` path is counted as one.
- Repeated child elements, which xml2js turns into arrays, are not modelled.
  Listing fields are strings, objects or absent.
- A `<Details>` or `<Location>` block given as a bare string is not modelled.
  A block is a record whose fields may each be absent.
- `console.log` and `console.error` (main.js:87, 184, 188) are left out.
  They are output only.
- The error message and stack of the re-thrown error are not modelled. The
  outcome records only which statement, field or listing failed.
- An object passed as a query parameter is driver-specific (pg serialises it
  as JSON). The model passes it as an opaque `Object` value.
- JsNumber.Number: accepts only decimal literals. Exponents, hexadecimal,
  binary and octal literals and `Infinity` are not modelled. Values are exact
  reals rather than IEEE doubles, so rounding, overflow and `-0` are not
  modelled.
- JsNumber.ParseFloat: the same restriction to decimal literals and exact
  reals.
- Text.ToUpper: upper-cases ASCII and Latin-1 only. Other scripts and
  expansions such as `ß` to `SS` are left as they are. Every label the code
  stores is covered.

## Findings

| source | as written | input that shows it | evidently intended | confidence | as-written member | corrected member |
|---|---|---|---|---|---|---|
| main.js:43-48 | `listings.forEach` is called on `json.ListingDataFeed.Listings.Listing`. With `explicitArray: false`, xml2js gives `undefined` for a feed without `<Listing>` and the bare object for a feed with exactly one. Neither has `forEach`, so the import throws and rolls back. | a feed whose `<Listings>` holds a single `<Listing>`, or none | a single listing imports as one row, and an empty feed empties the table (the `values.length` guard exists for that case) | not executed | Loader.ReplaceAllAsWritten (shown by Loader.SingleListingImportRejected and Loader.SingleListingFeedRejected) | Loader.ReplaceAll with Loader.ListingsOf (used by Loader.Import; proved in Loader.EmptyFeedEmptiesTable, Loader.ListingsOfAgrees and Loader.AsWrittenAgreesExceptShortFeeds) |
