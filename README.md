# Deal-memo template filler, modelled in Dafny

`main.py` turns the data extracted for a commercial real-estate loan into
the variables of a Word deal-memo template and renders it. This project
models the deterministic core of that program and proves what it promises:

- **Value helpers.** Currency parsing, the currency and percent formatters,
  `_str_or_empty`, `_split_list` and `extract_first_line_or_value`.
- **`Layer2ToSchemaMapper`.** The document index, `_safe_get`, the section
  builders (sponsorship aggregation with name-key de-duplication and a
  track record capped at 10, sources and uses placeholders, the validation
  partition, the 8-quarter foreclosure grid) and its `transform`.
- **`DealInputToSchemaMapper`.** A class whose constructor stores the deal's
  sections in fields and normalises the Layer 3 shape in place, the section
  builders (litigation, capital stack, disbursement and the rest) and
  `transform`, which fills the template variables step by step with
  first-writer-wins spreading at the root.
- **`preprocess_layer3_data`.** Narratives, disclosures and sponsor bios are
  rewritten through a markdown-stripping parameter; then come the display
  values and the background-check firm.
- **`flatten_schema_for_template` and `TEMPLATE_ALIASES`.** Modelled on a
  heap of dict objects (`Heap.PyDict`), because the source updates shared
  section dicts in place.
- **The template-safety passes.** `escape_jinja_syntax`,
  `_ensure_items_on_dicts` (an identity-visited recursion that adds `items`
  in place) and `_DictWithItemsList` (`Heap.ItemsView`).
- **`fill_template`.** Flatten, escape, merge the images, default `images`,
  add `items`, wrap the top-level dicts, coerce `sponsors`, fix
  `loan_issues`, then render through an abstract renderer that may fail.

Python values are the `Values.Json` datatype, with dicts as ordered
association lists. Python exceptions are the error side of
`Wrappers.Result`.

Files:

| File | Contents |
|---|---|
| wrappers.dfy | `Option`, `Result` and the Python errors |
| values.dfy | `Json`, truthiness, dict lookup and assignment, `get`, `len`, `+`, `str`/`repr` |
| text.dfy | string operations |
| numbers.dfy | integer and decimal text |
| helpers.dfy | the value helpers |
| escape.dfy | `escape_jinja_syntax` |
| layer2.dfy, layer2_memo.dfy | `Layer2ToSchemaMapper` |
| sponsorship.dfy | `_build_sponsorship` |
| deal_state.dfy | the deal mapper's fields |
| deal_sections.dfy | the deal mapper's section builders |
| deal_transform.dfy | the deal mapper's `transform` |
| mapper.dfy | `DealInputToSchemaMapper` as a class |
| preprocess.dfy | `preprocess_layer3_data` |
| heap.dfy | dict objects, `_ensure_items_on_dicts`, `_DictWithItemsList` |
| flatten.dfy | `flatten_schema_for_template` |
| assembly.dfy | `fill_template` |

## Model

| member | source | states |
|---|---|---|
| Values.Lookup | main.py:125-132 | a key lookup finds a value exactly when the key is present, and the value found is stored under that key |
| Values.LookupAt | main.py:1738-1739 | with distinct keys, the value at each position is the one found for its key |
| Values.Set | main.py:1216-1221 | assigning an existing key keeps the key order; a new key is appended at the end |
| Values.LookupSet | main.py:1216-1221 | after assigning a key, it holds the new value and every other key is unchanged |
| Values.SetUnique | main.py:1216-1221 | assignment keeps keys distinct |
| Values.LookupMerge | main.py:1340 | in `{**a, **b}` a key of b wins over a key of a |
| Values.Or | main.py:686-704 | `a or b` is one of the two and is truthy exactly when one of them is |
| Values.Get | main.py:125 | `.get(k, default)` works exactly on a dict, giving the stored value or the default |
| Values.GetAny | main.py:160-167 | `.get` on anything but a dict raises AttributeError; an unhashable key raises TypeError |
| Values.InStr | main.py:401-444 | `needle in x` is substring search on text and key search on a dict, and raises TypeError on a value that is not a container |
| Values.Iterate | main.py:124 | iterating a dict gives one element per key, a list its items, text one element per character; anything else raises TypeError |
| Values.First | main.py:1478 | `[0]` gives the first element of a non-empty list; an empty sequence raises IndexError, a dict KeyError, anything else TypeError |
| Values.Len | main.py:1059 | `len` works exactly on text, dicts, lists and tuples and counts what iteration gives |
| Values.Add | main.py:438-455 | adding numbers sums them, adding texts concatenates; mixed kinds raise TypeError |
| Values.Sub | main.py:438 | subtracting works exactly on numbers and gives their difference |
| Values.IntOf | main.py:1059 | an integer's value is its numeric value |
| Values.FloatOf | main.py:103 | `float(x)` keeps numbers, parses text (ValueError when that fails), and raises TypeError on anything else |
| Values.StrOf | main.py:150 | `str` of text is the text; `str` of an integer parses back to it |
| Values.Repr | main.py:767 | a repr is never empty; text is quoted with matching quotes |
| Values.StrRepr | main.py:767 | a text repr uses double quotes exactly when the text holds a single quote and no double quote |
| Text.ReplaceAbsent | main.py:420 | replacing a pattern the text does not hold changes nothing |
| Text.ReplaceKeepsAbsent | main.py:420 | replacing never introduces a character absent from both text and replacement |
| Text.Without | main.py:99 | removing a character leaves no occurrence of it |
| Text.WithoutAppend | main.py:99 | removing a character distributes over concatenation |
| Text.StripLeftShape | main.py:420 | left-stripping leaves a suffix that does not start with whitespace |
| Text.StripRightShape | main.py:420 | right-stripping leaves a prefix that does not end with whitespace |
| Text.Strip | main.py:420 | `strip()` gives a slice of the text with no outer whitespace |
| Text.StripStripped | main.py:1475 | stripping text without outer whitespace changes nothing |
| Text.StripTwice | main.py:1475-1478 | stripping is idempotent |
| Text.StripKeepsAbsent | main.py:1478 | stripping adds no character |
| Text.StripRightKeepsHead | main.py:1478 | `rstrip()` of a text starting with a non-blank character is not empty |
| Text.StripNonBlank | main.py:1478 | `strip()` of a text starting with a non-blank character is not empty |
| Text.StripChars | main.py:179 | `strip(chars)` leaves neither end in the given characters |
| Text.StripCharsAll | main.py:179 | text made only of stripped characters strips to nothing |
| Text.Lower | main.py:420-444 | lower-casing keeps the length |
| Text.LowerAppend | main.py:420 | lower-casing two texts joined is joining their lower-cased forms |
| Text.StripLeftSpaceEnd | main.py:420 | `lstrip()` of a text with a blank appended is the stripped text with the blank, or nothing when the text was all blanks |
| Text.StripRightSpaceEnd | main.py:420 | `rstrip()` ignores one trailing blank |
| Text.StripSpaceEnd | main.py:420 | `strip()` ignores one trailing blank |
| Text.ReplaceSkip | main.py:420 | a prefix without the pattern's first character passes through `replace` unchanged |
| Text.Split | main.py:782 | splitting always gives at least one piece |
| Text.JoinSplit | main.py:782 | joining the pieces of a split with its separator gives the text back |
| Text.SplitJoin | main.py:782 | splitting pieces joined with a separator none of them holds gives the pieces back |
| Text.SplitPiecesLackSeparator | main.py:782 | no piece of a split holds the separator |
| Text.BeforeFirst | main.py:1478 | the part before the first separator is a prefix without it |
| Text.SplitFirstIsBeforeFirst | main.py:1478 | the first piece of a split is the text before the first separator |
| Numbers.DigitValue | main.py:1059 | a digit's value converts back to the same digit |
| Numbers.NatToString | main.py:1059-1115 | `str(n)` for a natural number is a non-empty string of digits |
| Numbers.NatToStringRoundTrip | main.py:1059 | reading back the digits of `str(n)` gives n |
| Numbers.IntToString | main.py:150 | `str(i)` starts with a minus sign exactly when i is negative |
| Numbers.IntToStringParses | main.py:103-150 | `float(str(i))` is i |
| Numbers.ZeroPadValue | main.py:144-148 | zero padding keeps a digit string's value |
| Numbers.GroupUngroup | main.py:224 | removing the thousands separators from a grouped number gives its digits back |
| Numbers.RoundHalfEven | main.py:144-148 | formatting rounds to the nearest integer, ties to even |
| Numbers.DivPow10 | main.py:144-148 | quotient and remainder by a power of ten recombine to the number |
| Numbers.Fixed | main.py:144-148 | a fixed-point text starts and ends with a digit and, ungrouped, parses to the exact value |
| Numbers.FormatFixed | main.py:144-148 | `f"{x:.nf}"` starts with a digit or minus and ends with a digit |
| Numbers.ExactDecimals | main.py:150 | the decimal count chosen for `str(x)` lies between the start and 17 |
| Numbers.FormatFixedRoundTrip | main.py:156 | `float(f"{x:.nf}")` is x rounded half-even to n decimals |
| Numbers.FormatFixedUngroup | main.py:144-148 | dropping the separators from `f"{x:,.nf}"` gives `f"{x:.nf}"` |
| Numbers.FormatFixedStripped | main.py:99-103 | a formatted number has no outer whitespace |
| Numbers.FormatFixedLacks | main.py:99 | a formatted number holds only digits, commas, a point and a minus |
| Numbers.FloatReprRoundTrip | main.py:150 | `float(str(x))` is x for any x with a finite decimal expansion of at most 17 places |
| Numbers.BeforeExponent | main.py:103 | the mantissa is a prefix without an exponent mark |
| Escaping.EscapeString | main.py:80 | the four replacements only insert spaces: with spaces dropped, the result equals the input with spaces dropped |
| Escaping.EscapeStringUnchanged | main.py:77-80 | a string holding none of `{{`, `}}`, `{%`, `%}` comes back unchanged |
| Escaping.EscapeStringBraces | main.py:80 | `"{{x}}"` becomes `"{ {x} }"` |
| Escaping.EscapeStringTripleBrace | main.py:80 | `"{{{"` becomes `"{ {{"`, which still holds `{{`: the replacement is left to right and non-overlapping |
| Escaping.Escape | main.py:72-85 | a string is escaped; a dict keeps exactly its keys, in order; a list keeps its length; every other value (None, booleans, numbers, tuples, foreign objects) comes back unchanged |
| Escaping.EscapeFields | main.py:81-82 | the dict comprehension keeps the keys in order and escapes each value |
| Escaping.EscapeItems | main.py:83-84 | the list comprehension keeps the length and escapes each item |
| Escaping.EscapeClean | main.py:72-85 | a value none of whose strings holds a delimiter comes back equal |
| Helpers.CleanCurrency | main.py:99 | the cleaned text holds no dollar sign, comma or space |
| Helpers.ParseCurrency | main.py:88-106 | a number converts to itself; text converts to the float of its cleaned form or 0 when that fails; anything else is 0 |
| Helpers.Dollars | main.py:144-148 | a dollar amount starts with `$` |
| Helpers.CleanDollars | main.py:99-148 | cleaning a formatted dollar amount leaves the plain fixed-point number |
| Helpers.DollarsParseBack | main.py:88-148 | parsing a formatted dollar amount gives the amount rounded to the shown decimals |
| Helpers.FormatCurrency | main.py:138-150 | None shows as "N/A", a value float() rejects as its `str`, a number as a `$` amount ending in "M" from one million |
| Helpers.FormatCurrencyParsesBack | main.py:88-106 | under a million, the formatted amount parses back to the value rounded to 0 decimals (from 1000) or 2 decimals |
| Helpers.FormatPercent | main.py:152-158 | None shows as "N/A", a value float() rejects as its `str`, a number as two decimals and `%` that parse back to the rounded value |
| Helpers.FmtCurrency | main.py:756-767 | None shows as "N/A", text starting with `$` is kept, a value float() rejects as its `str`, a number as a `$` amount |
| Helpers.FmtCurrencyParsesBack | main.py:88-106 | under a million, the formatted amount parses back to the value rounded to whole dollars |
| Helpers.FmtCurrencyIdempotent | main.py:756-767 | formatting an already formatted amount changes nothing |
| Helpers.FmtPct | main.py:769-777 | None shows as "N/A", text with `%` is kept, a value float() rejects as its `str`, a number as two decimals and `%` that parse back to the rounded value |
| Helpers.FmtPctIdempotent | main.py:769-777 | formatting an already formatted percent changes nothing |
| Helpers.StrOrEmpty | main.py:784-788 | None shows as "" and anything else as its `str` |
| Helpers.StrOrEmptyNeverNone | main.py:784-788 | the text is never "None" unless the value was that text |
| Helpers.NoneIsNotANumber | main.py:761-767 | "None" is not a float |
| Helpers.MantissaNeedsDigit | main.py:761-767 | text starting with a character other than a digit or point is not a float mantissa |
| Helpers.CleanPieces | main.py:782 | kept pieces are non-empty and stripped |
| Helpers.SplitList | main.py:779-782 | a falsy value gives no items; every item is non-empty, stripped and free of commas |
| Helpers.CleanPiecesLack | main.py:782 | a character absent from every piece is absent from every kept piece |
| Helpers.SplitListJoin | main.py:779-782 | splitting names joined with commas gives the names back, when they are non-empty, stripped and comma-free |
| Helpers.JoinNonEmpty | main.py:779-782 | names joined with commas are not empty |
| Helpers.CleanPiecesKeep | main.py:782 | non-empty stripped pieces are all kept |
| Helpers.ExtractFirstLine | main.py:1471-1479 | the result holds no newline and has no outer whitespace; None gives "" |
| Helpers.ExtractSingleLine | main.py:1471-1479 | text without a newline gives its stripped self |
| Helpers.FirstLineOfText | main.py:1471-1479 | for any value but None the result is empty exactly when the stripped text is empty, and it is a slice of the stripped text's first line |
| Layer2.AddDoc | main.py:126-128 | filing `doc` under type `t` appends it to that type's records and adds one to the total count |
| Layer2.AddDocOthers | main.py:126-128 | filing under `t` leaves every other type's records as they were |
| Layer2.AddDocUnique | main.py:126-127 | a type is never listed twice: a new type is added, a known one keeps its place |
| Layer2.IndexRecord | main.py:124-128 | one loop turn succeeds exactly when the record is a dict whose `dd_name` can be a key; otherwise AttributeError (not a dict) or TypeError (unhashable type) |
| Layer2.IndexFrom | main.py:122-129 | the loop over the records succeeds exactly when every record is accepted, and fails only with AttributeError or TypeError |
| Layer2.IndexFromDocs | main.py:122-129 | each type's records are those filed before, then the records of that type in arrival order (with `{}` for a missing `extracted_data`) |
| Layer2.IndexFromTotal | main.py:122-129 | the total across types grows by exactly the number of records |
| Layer2.IndexFromUnique | main.py:122-129 | no type is listed twice in the finished index |
| Layer2.IndexByDocumentType | main.py:118-129 | the loop builds the index that `IndexFrom` defines from an empty index |
| Layer2.GetAllDocsOfRecords | main.py:135-136 | `_get_all_docs` returns exactly the type's records in arrival order, `[]` when there are none |
| Layer2.GetDocOfRecords | main.py:131-133 | `_get_doc` returns the `index`-th record of the type, or `{}` at or past the count |
| Layer2.SafeGet | main.py:160-167 | never yields None unless `default` is None; with hashable keys it never raises; a non-dict met before the last key yields `default` |
| Layer2.SafeGetWalk | main.py:160-167 | the loop computes what `SafeGet` defines |
| Layer2.SafeGetPath | main.py:160-167 | with string keys and a default that is not a non-empty dict, the result is the value at the end of the path, or `default` when the path breaks off or ends in None |
| Layer2.SafeGetDefault | main.py:160-167 | a walk that starts from a default that is not a non-empty dict ends at that default |
| Layer2.Dig | main.py:160-167 | `_safe_get` with string keys: None only when the default is None, and the default when the data is not a dict |
| Layer2.Location | main.py:358-371 | the section is a dict with one key, `narrative`; an address that is not a dict raises AttributeError |
| Layer2.LocationWithoutAppraisal | main.py:358-371 | without an appraisal the sentence keeps its three place-holders empty |
| Layer2.Checks | main.py:547-555 | the seven document checks |
| Layer2.FlagsFrom | main.py:562-568 | each missing document adds exactly one flag: critical for Appraisal, Term Sheet and PFS, a warning otherwise |
| Layer2.ChecksPartition | main.py:558-568 | every check is passed, warned or failed, and only one of these |
| Layer2.BuildValidationFlags | main.py:546-573 | the loop builds the section that `ValidationFlags` defines |
| Layer2.ValidationTotals | main.py:557-573 | the summary's total is 7 and equals passed + warnings + failed; failed counts only a missing Appraisal, Term Sheet or PFS |
| Layer2.QuarterRow | main.py:631-643 | row `q` has `Quarter` = `Q<q>` followed by the nine money columns, each "TBD" |
| Layer2.BuildForeclosureAnalysis | main.py:627-649 | the loop over quarters 1 to 8 gives both scenarios the rows that `ForeclosureAnalysis` defines |
| Layer2.ForeclosureQuarters | main.py:630-645 | the grid has eight rows and row `i` is labelled with quarter `i + 1` |
| Layer2.ZoningEntitlements | main.py:614-625 | the section has exactly its four keys; TypeError only from an unhashable positional key |
| Layer2.ZoningShowsNone | main.py:617-618 | unless the zoning record's `current_zoning` is itself a dict, `current_zoning` shows "None": the appraisal's zoning, passed positionally, becomes a key |
| Layer2.ListedItems | main.py:297-298 | a record without the key lists nothing; with it, the items of iterating the value |
| Layer2.SourceRow | main.py:299-303 | a row exists exactly for a dict item, and has the keys `label`, `amount`, `percent` |
| Layer2.UseRow | main.py:306-310 | a row exists exactly for a dict item, and has the keys `label`, `amount`, `release_conditions` |
| Layer2.Rows | main.py:298-310 | the rows of a list of items are as many as the items |
| Layer2.RowsAt | main.py:298-310 | the rows exist exactly when every item has one, and row `i` is the row of item `i` |
| Layer2.RowsAppend | main.py:296-310 | the rows of two lists back to back are the rows of the joined list |
| Layer2.AppendRows | main.py:298-310 | the append loop extends the accumulator by the rows that `Rows` defines |
| Layer2.BuildSourcesAndUses | main.py:291-317 | the record loop builds the section that `SourcesAndUses` defines |
| Layer2.SourcesUsesRows | main.py:296-310 | when the record loop succeeds, the sources table is one row per source item of every record, in order; likewise the uses table |
| Layer2.DocRowsParts | main.py:297-310 | a record's rows are the rows of what it lists under `sources` and under `uses` |
| Layer2.ListedRows | main.py:296-310 | one record's rows followed by the later records' rows are the rows of everything listed |
| Layer2.SourcesAndUsesTables | main.py:312-316 | the sources table is a row per listed source item, or the single TBD row when nothing is listed |
| Layer2.ValuesFrom | main.py:587-592 | the valuation loop fails only with AttributeError or TypeError |
| Layer2.ValuesFromLast | main.py:587-592 | with text premises, the loop keeps the value of the last "As Is" entry and of the last "Stabilized" entry |
| Layer2.ScanValuations | main.py:585-592 | the loop over the conclusions computes what `ValuesFrom` defines, or the error of iterating them |
| Layer2.AppraiserName | main.py:583 | "N/A" when there are no appraisers, else the first appraiser's `name` (default "N/A") |
| Layer2.BuildThirdPartyReports | main.py:575-612 | the method builds the section that `ThirdPartyReports` defines |
| Layer2.EnvironmentalFirmIsNone | main.py:605 | unless the Phase I report's `firm` is itself a dict, the environmental firm is None: the preparer fallback, passed positionally, becomes a key |
| Layer2Memo.Fact | main.py:228-249 | a `{"label", "value"}` row with the caption and value given |
| Layer2Memo.Facts | main.py:228-249 | one row per caption, in order, each holding its value |
| Layer2Memo.Grouped | main.py:224 | `f"{x:,}"` succeeds exactly for numbers; text raises ValueError, anything else TypeError |
| Layer2Memo.GroupedParsesBack | main.py:224 | a grouped number with its commas dropped parses back to the number |
| Layer2Memo.FullAddress | main.py:179 | the address after `.strip(', ')` neither starts nor ends with a comma or space |
| Layer2Memo.FullAddressOfParts | main.py:179 | with a street and a zip code that do not start or end in a comma or space, the address is `street, city, state zip` |
| Layer2Memo.FullAddressBlank | main.py:179 | with every part empty the address is empty |
| Layer2Memo.CoverJson | main.py:181-192 | the cover dict has its seven keys in order, with the name, address and date given |
| Layer2Memo.Cover | main.py:169-192 | the cover has seven fields; the address is text trimmed of commas and spaces; the date is the one passed in |
| Layer2Memo.CoverWithoutAppraisal | main.py:169-179 | without an appraisal the property name and address are empty |
| Layer2Memo.Run | main.py:217 | the longest prefix made of digits and commas |
| Layer2Memo.AmountRun | main.py:217 | `re.search(r'\$?([\d,]+)')`: no match exactly when the text has no digit or comma; a match is a non-empty run of them |
| Layer2Memo.LoanAmountNumber | main.py:214-222 | a number is kept; text gives the number of its first digit run or None; ValueError exactly when that run is commas only |
| Layer2Memo.LoanAmountOfDollars | main.py:216-219 | `"$" + n` written with thousands separators, followed by anything not a digit or comma, reads as `n` |
| Layer2Memo.LoanToValue | main.py:224-226 | None unless both the loan and the as-is value are truthy; then loan / value × 100; TypeError exactly when the value is not a number |
| Layer2Memo.DealFacts | main.py:232-240 | the seven deal-fact rows with their captions in order |
| Layer2Memo.LoanTerms | main.py:241-248 | the six loan-term rows with their captions in order |
| Layer2Memo.LeverageMetrics | main.py:249-254 | the four leverage rows; the LTV row shows the formatted percentage when the LTV is truthy, else "N/A" |
| Layer2Memo.OverviewJson | main.py:231-255 | the section dict has `deal_facts`, `loan_terms`, `leverage_metrics` holding the three row lists |
| Layer2Memo.OverviewSpec | main.py:195-255 | the section fails only with ValueError or TypeError; on success it has the three captioned row lists |
| Layer2Memo.TransactionOverview | main.py:195-255 | the section fails only with AttributeError, TypeError or ValueError |
| Layer2Memo.BuildTransactionOverview | main.py:195-255 | the method with its valuation loop computes what `TransactionOverview` defines |
| Layer2Memo.LoanToValueOfNumbers | main.py:224-226 | with a positive loan and a truthy numeric value, the LTV is loan / value × 100 and is truthy |
| Layer2Memo.OverviewLoanToValue | main.py:214-254 | a loan amount written `$n` with separators and a numeric as-is value make the LTV row show the formatted ratio |
| Layer2Memo.Highlights | main.py:266-273 | three highlights, four when the occupancy is truthy; the GLA line says "See appraisal" when the GLA is falsy |
| Layer2Memo.SummaryJson | main.py:275-284 | the section dict has its four keys in order with the highlights given |
| Layer2Memo.ExecutiveSummary | main.py:256-284 | succeeds exactly when the GLA is a number and the redevelopment plan is a dict; a non-numeric GLA raises ValueError (text) or TypeError, a non-dict plan AttributeError; on success there are 3 or 4 highlights as the occupancy is truthy or not |
| Layer2Memo.JoinTexts | main.py:353 | `", ".join(xs)` succeeds exactly when every item is text, and then joins them |
| Layer2Memo.FirstFive | main.py:353 | `xs[:5]`: the first five items, or all of them when there are fewer |
| Layer2Memo.AnchorList | main.py:351-353 | a list of anchors joins its first five; anything else that cannot be sliced or joined raises TypeError |
| Layer2Memo.PropertyMetrics | main.py:339-350 | the ten metric rows with their captions in order |
| Layer2Memo.AreaText | main.py:325-326 | a number is written with thousands separators; anything else is shown as it is |
| Layer2Memo.AnchorRows | main.py:351-353 | no anchor row when the anchors are falsy; otherwise one row holding the joined list, or TypeError |
| Layer2Memo.PropertyJson | main.py:355 | the section dict has `description_narrative` and `metrics`, the metrics followed by the anchor row |
| Layer2Memo.PropertySection | main.py:319-355 | succeeds exactly when the anchors are falsy or can be joined; ten captioned metrics, then the anchor row when there are anchors |
| Layer2Memo.SectionsJson | main.py:657-670 | the sections dict has the section keys in order |
| Layer2Memo.MemoJson | main.py:653-671 | the memo dict has `cover`, `toc` = "{{TOC}}" and `sections` |
| Layer2Memo.Memo | main.py:651-671 | on success the memo has `cover`, `toc` = "{{TOC}}" and a `sections` dict with the section keys in order |
| Layer2Memo.Layer2Transform | main.py:651-671 | the method, with its loops, computes what `Transform` defines: index the records, then build the memo |
| Sponsorship.PrincipalsFrom | main.py:396-402 | scanning the principals fails only with TypeError (a `'Hudson' in name` test on a name that is not text) |
| Sponsorship.ScanPrincipals | main.py:397-402 | the loop over the principals ends with the name the specification function picks |
| Sponsorship.PrincipalsPickHudson | main.py:398-402 | the first dict principal whose name mentions "Hudson" stops the scan and its name is the result |
| Sponsorship.PrincipalsPickLast | main.py:398-402 | with no Hudson principal the result is the name of the last dict principal (or the name held before) |
| Sponsorship.LastDict | main.py:398-400 | the index found holds a dict and no later principal is one |
| Sponsorship.LastNameStep | main.py:398-400 | a dict principal replaces the running name, anything else keeps it |
| Sponsorship.LastDictUnique | main.py:398-400 | the last dict principal is unique |
| Sponsorship.SponsorName | main.py:393-414 | the four name patterns fail only with TypeError or AttributeError, and a statement that is not a dict raises AttributeError |
| Sponsorship.FindSponsorName | main.py:393-414 | the pattern cascade yields the name its specification function gives |
| Sponsorship.NameKeyShape | main.py:420 | the de-duplication key holds no comma and no full stop and has no outer whitespace |
| Sponsorship.LowerPlain | main.py:420 | a name without comma, full stop or j lower-cases to one without them |
| Sponsorship.NameKeyPlain | main.py:420 | such a name's key is its lower-cased, stripped text |
| Sponsorship.JuniorCleaned | main.py:420 | removing commas and full stops from the lower-cased " Jr." name leaves the name followed by " jr" |
| Sponsorship.JuniorReplaced | main.py:420 | removing "jr" from such a text leaves the name and one trailing blank |
| Sponsorship.NameKeyWithJunior | main.py:420 | the key of the " Jr." name is the lower-cased name with a blank, stripped |
| Sponsorship.NameKeyJunior | main.py:420 | a " Jr." suffix does not change the de-duplication key, so a junior and a senior of the same name are listed once |
| Sponsorship.NameKeySuffix | main.py:420 | "Steve Hudson Jr." and "Steve Hudson" share one key |
| Sponsorship.FirstValue | main.py:443-453 | searching the asset items fails only with AttributeError (an item that is not a dict) |
| Sponsorship.ScanAssetItems | main.py:443-453 | the loop over the asset items ends with the value its specification function gives |
| Sponsorship.FirstValueFirst | main.py:443-453 | the first item whose asset type mentions every word gives its `value` (default 0) |
| Sponsorship.FirstValueNone | main.py:443-453 | when no item matches the held value is kept |
| Sponsorship.NetWorth | main.py:436-438 | a truthy stated net worth is kept, as is any value when total assets are falsy; otherwise net worth is assets minus liabilities (liabilities counted as 0 when falsy) |
| Sponsorship.Holding | main.py:441-453 | a truthy field value is used as is; only item search can fail, with AttributeError or TypeError |
| Sponsorship.TotalLiabilities | main.py:430-434 | the liabilities lookup falls back to the second location and fails only with AttributeError |
| Sponsorship.MakeEntry | main.py:458-469 | the sponsor dict has the six keys in order holding the name and the five figures given, and the three summary rows show the assets, the net worth and the liquidity under the sponsor's name |
| Sponsorship.Financials | main.py:425-469 | a statement that yields an entry has a sponsor that counts (truthy assets or net worth), under the name given, with three rows; errors are AttributeError or TypeError; the figures are stated by FinancialsFigures |
| Sponsorship.FinancialsFigures | main.py:436-465 | the sponsor's total assets are the statement's; its net worth is the stated one or assets minus liabilities; its cash and securities are the figures found; its liquidity is cash plus securities, each falsy one counted as 0 |
| Sponsorship.FindHolding | main.py:441-453 | the holding lookup gives what its specification function gives |
| Sponsorship.ExtractFinancials | main.py:425-469 | the extraction of one statement's figures gives what its specification function gives |
| Sponsorship.PfsStep | main.py:392-469 | one statement either adds nothing or adds a sponsor; errors are AttributeError or TypeError |
| Sponsorship.PfsFrom | main.py:392-469 | the pass over all statements fails only with AttributeError or TypeError |
| Sponsorship.GatherSponsors | main.py:388-469 | the loop over the PFS documents ends with the sponsors, rows and seen keys its specification function gives |
| Sponsorship.SponsorKeys | main.py:420-423 | there is one key per sponsor |
| Sponsorship.PfsStepConsistent | main.py:416-469 | one statement keeps sponsor keys distinct and seen, every sponsor counting, three rows per sponsor, and forgets no seen key |
| Sponsorship.AddSponsor | main.py:421-469 | adding a sponsor under an unseen key keeps that invariant |
| Sponsorship.AddKey | main.py:421-423 | an unseen key appended to distinct seen keys keeps them distinct and seen |
| Sponsorship.PfsFromConsistent | main.py:392-469 | the whole pass keeps the invariant |
| Sponsorship.StatementSponsorsDistinct | main.py:385 | the sponsors taken from the PFS documents have pairwise distinct name keys, all count, and there are three summary rows each |
| Sponsorship.FromGuarantors | main.py:477-487 | a guarantors block adds exactly two summary rows and keeps the sponsors already held |
| Sponsorship.Fallback | main.py:472-487 | the fallback loop gives what its specification function gives |
| Sponsorship.FallbackFirst | main.py:473-487 | the first document with truthy guarantors decides the result and the loop stops there |
| Sponsorship.FallbackNone | main.py:473-487 | with no truthy guarantors anywhere nothing is added |
| Sponsorship.GuarantorsTotalNothing | main.py:483-491 | guarantor sponsors (all figures None) sum to 0 |
| Sponsorship.WithCombined | main.py:493-495 | the COMBINED NET WORTH and COMBINED LIQUIDITY rows, showing the sums over the sponsors, are inserted at the front exactly when there are sponsors and their net worth sums above 0; otherwise the rows are unchanged |
| Sponsorship.FallbackHasNoCombinedRows | main.py:483-495 | fallback sponsors sum to 0 and so never get combined rows |
| Sponsorship.Overview | main.py:498-504 | with no sponsors the narrative is the placeholder; it fails, with TypeError, exactly when some sponsor's name is not text |
| Sponsorship.PropertyName | main.py:511 | the property-name lookup succeeds exactly on a dict |
| Sponsorship.TrackEntry | main.py:511-518 | a track entry counts as listed exactly when its name is truthy and not "N/A" |
| Sponsorship.ExtendsTrans | main.py:518 | extending the track record is transitive |
| Sponsorship.PropsFrom | main.py:510-520 | one SREO's properties extend the track record without passing 10 entries; errors are AttributeError |
| Sponsorship.TrackFrom | main.py:508-522 | the SREO pass keeps at most 10 entries and extends what was held |
| Sponsorship.TrackRecord | main.py:507-525 | the track record has 1 to 10 entries: the placeholder alone, or listed properties only |
| Sponsorship.ScanProperties | main.py:510-520 | the loop over one SREO's properties gives what its specification function gives |
| Sponsorship.BuildTrackRecord | main.py:507-525 | the loops over the SREOs give the track record its specification function gives |
| Sponsorship.BuildSponsorship | main.py:380-532 | the sponsorship builder gives the section its specification function assembles |
| DealState.Fetch | main.py:686-704 | `dict.get(k, default)`: the stored value when the key is present, the default otherwise |
| DealState.AsDict | main.py:713-754 | `.get` on a value works exactly on a dict and raises AttributeError on anything else |
| DealState.OrEmpty | main.py:686-704 | `x or {}` keeps a truthy value and turns anything falsy into an empty dict |
| DealState.Section | main.py:686-704 | every section read in the constructor is truthy or an empty dict |
| DealState.Initial | main.py:684-704 | the constructor keeps the deal and leaves every section truthy or an empty dict |
| DealState.FillDealFacts | main.py:712-713 | deal facts already given are kept; otherwise they come from the memo, failing with AttributeError exactly when the memo is truthy but not a dict; nothing else changes |
| DealState.FillLeverage | main.py:714-715 | leverage already given is kept; only the leverage field can change; a non-dict memo with no leverage raises AttributeError |
| DealState.FillLoanTerms | main.py:716-718 | loan terms already given are kept; only that field changes; failures are AttributeError |
| DealState.FillClosing | main.py:719-720 | a closing disbursement already given is kept; only that field changes; a non-dict memo raises AttributeError |
| DealState.MemoDate | main.py:727 | the memo date read succeeds exactly on a dict memo and is always text |
| DealState.CoverOf | main.py:723-728 | the rebuilt cover is a dict with its four keys in order |
| DealState.FillCover | main.py:721-728 | a cover already given is kept; a new cover has the four cover keys in order; only the cover changes |
| DealState.PropertyOf | main.py:732-740 | the rebuilt property is a dict with its seven keys in order |
| DealState.PropertyValues | main.py:733-739 | one value per property key |
| DealState.FillProperty | main.py:729-740 | a property already given is kept; only the property changes; failures are AttributeError |
| DealState.NarrativesOf | main.py:743-750 | narratives built from the placeholders have six entries |
| DealState.GivenNarratives | main.py:751-754 | given narratives are kept unless the property overview is blank or "None", in which case that one entry is replaced from the placeholders |
| DealState.FillNarratives | main.py:741-754 | only the narratives change; a non-dict memo raises AttributeError |
| DealState.FillSections | main.py:710-740 | the first six steps keep every truthy field and touch no other field |
| DealState.FillFigures | main.py:712-720 | the figure steps keep the deal |
| DealState.FillIdentity | main.py:721-740 | the cover and property steps keep the deal |
| DealState.Normalize | main.py:707-754 | the normalisation keeps the deal and fails only with AttributeError |
| DealState.Construct | main.py:684-705 | the constructor fails only with AttributeError |
| DealState.NormalizeKeepsGiven | main.py:712-729 | every field that was already truthy, and every field normalisation does not touch, is unchanged |
| DealState.FillNarrativesGiven | main.py:751-754 | given narratives stay as they are or get only a new property overview, and a blank overview is replaced whenever placeholders exist |
| DealState.NormalizeKeepsNarratives | main.py:751-754 | every narrative other than the property overview is kept as given |
| DealState.NormalizeFillsBlankOverview | main.py:753-754 | a blank property overview becomes the placeholders' property description |
| DealState.NormalizeFillsDealFacts | main.py:712-713 | empty deal facts become the memo's deal facts table (or an empty dict) |
| DealState.NormalizeFillsLoanTerms | main.py:716-718 | empty loan terms become the extracted loan terms' `data` dict when there is one, else the loan terms themselves |
| DealState.NormalizeNeedsDictMemo | main.py:710-713 | a truthy memo that is not a dict makes normalisation raise AttributeError |
| DealState.NormalizeSettled | main.py:707-754 | normalisation leaves every section truthy or an empty dict |
| DealSections.Field | main.py:806-1185 | `dict.get(k)`: the stored value when present, None otherwise |
| DealSections.Shown | main.py:824-842 | `str_or_empty(x) or "N/A"` is never empty, keeps non-empty text and shows None as "N/A" |
| DealSections.Prefix | main.py:854 | a slice `[:n]` is a prefix of at most n characters, the whole text when it is short enough |
| DealSections.Slice | main.py:854 | slicing works on text, lists and tuples and keeps at most n elements; anything else raises TypeError |
| DealSections.ItemsOf | main.py:855 | iterating `x or []` gives nothing for a falsy value, the items of a list, and raises TypeError for a truthy non-iterable |
| DealSections.FirstItems | main.py:855 | `(... or [])[:6]` gives at most six items, failing with TypeError only on a value that cannot be sliced |
| DealSections.DictCount | main.py:856 | the dict elements of a list are at most as many as its elements |
| DealSections.DictRows | main.py:856 | a comprehension skipping non-dicts gives one row per dict element |
| DealSections.DictRowsOne | main.py:1095-1097 | a single dict gives exactly its own row |
| DealSections.DictRowsFrom | main.py:1101-1110 | every row comes from some dict element at or after its own position |
| DealSections.DictRowsAll | main.py:1021-1029 | when every element is a dict, row i is the row of element i |
| DealSections.DictRowsNone | main.py:1101-1103 | with no dict element there are no rows |
| DealSections.DictRowsAppend | main.py:1144-1158 | rows of a concatenation are the concatenated rows |
| DealSections.CollectDictRows | main.py:1021-1029 | the loop skipping non-dicts gives what its specification function gives |
| DealSections.ShownFacts | main.py:823-843 | each row carries its caption in order and a non-empty value |
| DealSections.Names | main.py:813-814 | the split comma list is a list of non-empty stripped names |
| DealSections.CoverJson | main.py:808-816 | the cover dict has its seven keys in order, holding the name, address, committee, team and date given |
| DealSections.DealCover | main.py:805-816 | the cover is built exactly when property and cover are dicts (AttributeError otherwise); committee and team are name lists; the date is the given date, or today when that is empty |
| DealSections.RateDescription | main.py:819-822 | an interest rate given as text is its own description; a dict gives its `description`; anything else gives None |
| DealSections.DealFactRows | main.py:823-829 | the five deal-fact rows carry their captions in order and non-empty values |
| DealSections.LoanTermRows | main.py:830-836 | the five loan-term rows carry their captions in order and non-empty values |
| DealSections.LeverageRows | main.py:837-843 | the four leverage rows carry their captions in order and non-empty values |
| DealSections.TransactionOverview | main.py:818-848 | the overview is built exactly when loan terms, deal facts, property and leverage are dicts; its three tables carry their captions and non-empty values |
| DealSections.OverviewJson | main.py:844-848 | the overview dict has its three keys in order holding the three tables |
| DealSections.OverviewNarrative | main.py:851-853 | a truthy transaction overview is used as is; otherwise the fallback needs a dict property (AttributeError) |
| DealSections.SummaryJson | main.py:857-863 | the summary has its five keys in order, the narrative twice, and a non-empty highlight list (the placeholder when none are given) |
| DealSections.ExecutiveSummary | main.py:850-863 | the narrative is at most 4000 characters, a truthy transaction overview's prefix; there are 1 to 6 highlights; non-dict narratives or highlights raise |
| DealSections.DictRowsShaped | main.py:887-903 | rows built by a shaped row function all have the same keys |
| DealSections.TotalSources | main.py:869-873 | the total is the float of the given value, or 0 when conversion fails |
| DealSections.OneDecimalPercent | main.py:882 | `f"{x:.1f}%"` ends in a percent sign and the number before it is x rounded to one decimal |
| DealSections.SharePercent | main.py:879-886 | with a non-zero total and a convertible amount the percent is the share rounded to one decimal; otherwise it is the formatted rate |
| DealSections.SourceEntry | main.py:887-891 | a source row has keys label, amount, percent |
| DealSections.UseEntry | main.py:899-903 | a use row has keys label, amount, release_conditions |
| DealSections.DictConcat | main.py:893-903 | the rows of all categories keep the row shape; only TypeError can arise |
| DealSections.DictConcatAppend | main.py:1144-1158 | the categories are processed in order: two runs of categories succeed together exactly when each does, giving the first run's rows followed by the second's |
| DealSections.CategoryRows | main.py:896-903 | one category's rows all have the use keys |
| DealSections.TbdShaped | main.py:906-907 | the TBD placeholders have the source and use shapes |
| DealSections.SourcesUsesJson | main.py:904-909 | the table holds the sources and uses given, or a TBD row in place of an empty list |
| DealSections.SourcesAndUses | main.py:865-909 | a non-dict sources-and-uses section raises AttributeError; a built table has every row in its shape |
| DealSections.Occupancy | main.py:934-935 | the occupancy text is never empty |
| DealSections.FloorArea | main.py:925 | a numeric floor area is shown grouped with " SF" |
| DealSections.Metrics | main.py:926-937 | the ten metrics carry their captions in order and land area reads `<value> acres` |
| DealSections.MetricValues | main.py:927-936 | there are ten metric values, the third being the land area in acres |
| DealSections.LaterMetricValues | main.py:930-936 | there are seven later metric values |
| DealSections.PropertyNarrative | main.py:915-919 | the property narrative is truthy and is the given overview unless that is falsy or "None" |
| DealSections.Description | main.py:938-940 | the description is at most 5000 characters and never "None"; otherwise it is the narrative's prefix |
| DealSections.Property | main.py:911-941 | the property section is built exactly when property and narratives are dicts, with a description of at most 5000 characters and the metrics |
| DealSections.PropertyJson | main.py:941 | the property dict holds the description and metrics given |
| DealSections.LandAreaNone | main.py:929 | a land area stored as None reads "None acres" |
| DealSections.NarrativeJson | main.py:948-954 | a narrative section holds exactly the text given |
| DealSections.LocationSentence | main.py:946-947 | the fallback sentence is built exactly when the property is a dict whose `address` is a dict or falsy; otherwise AttributeError |
| DealSections.Location | main.py:943-948 | the location narrative is at most 4000 characters, the given overview's prefix when it is truthy; a non-dict narratives raises AttributeError |
| DealSections.LocationTextAddress | main.py:946-947 | with no location overview and an address given as text, `.get` on the address raises AttributeError |
| DealSections.Market | main.py:950-954 | the market narrative is the given overview's first 4000 characters, or the fixed fallback |
| DealSections.GuarantorEntry | main.py:965-972 | a guarantor sponsor has the six sponsor keys and the name given |
| DealSections.PrincipalEntry | main.py:985 | a principal sponsor has the six sponsor keys and the principal's name |
| DealSections.PrincipalEntries | main.py:973-985 | principals give at most one sponsor each, every one with a truthy name |
| DealSections.GuarantorEntries | main.py:964-972 | there is one sponsor per guarantor name, in order; adding cash and securities may raise TypeError |
| DealSections.SponsorEntries | main.py:963-985 | guarantor names, when present, give one sponsor each; otherwise principals are used |
| DealSections.SponsorNames | main.py:998 | one name per sponsor |
| DealSections.PerSponsorRows | main.py:993-995 | two summary rows per sponsor |
| DealSections.CombinedRows | main.py:987-992 | the combined rows show the guarantors' stated net worth or else the sum, and the summed liquidity |
| DealSections.FinancialSummary | main.py:989-995 | the summary is the two combined rows followed by two rows per sponsor |
| DealSections.DisplayName | main.py:1000-1005 | the display name is truthy: the given name when truthy, otherwise the guarantors joined or a placeholder |
| DealSections.SponsorshipJson | main.py:1008-1016 | the display name fills name, overview and overview narrative; the sponsor detail is a TBD row when empty |
| DealSections.SponsorshipSection | main.py:956-1016 | a non-dict sponsor raises AttributeError; the summary has two combined rows then two rows per listed sponsor |
| DealSections.RiskRow | main.py:1024-1029 | a risk row has the four risk keys and score "Moderate" |
| DealSections.RisksJson | main.py:1032-1037 | risk_items and items are the same list, the placeholder when no rows |
| DealSections.RisksAndMitigants | main.py:1018-1037 | a non-dict risks section raises AttributeError; there is at least one row, all scored Moderate; with no narrative the recommendation is the fallback |
| DealSections.ValidationFlags | main.py:1039-1044 | the flags report 7 checks, 7 passed, none warning or failing, and no flags |
| DealSections.TextDict | main.py:1047-1068 | a dict of non-empty texts under the keys given |
| DealSections.AppraisalJson | main.py:1048-1055 | the appraisal has its six keys, each a non-empty text |
| DealSections.EnvironmentalJson | main.py:1056-1062 | current RECs is the decimal count of historical RECs and the findings are 1 to 500 characters |
| DealSections.PcaJson | main.py:1063-1067 | the PCA block has its three keys, each non-empty text |
| DealSections.ReportsJson | main.py:1047-1068 | the reports dict holds appraisal, environmental and PCA |
| DealSections.ThirdPartyReports | main.py:1046-1068 | the reports need dict due diligence, valuation, environmental and narratives; the REC count is the length of the historical RECs |
| DealSections.ZoningSentence | main.py:1073 | the fallback sentence is built exactly on a dict zoning section |
| DealSections.ZoningJson | main.py:1074-1080 | the zoning dict holds its five keys with the text, zone and presence given |
| DealSections.ZoningEntitlements | main.py:1070-1080 | built exactly when narratives and zoning are dicts; `exists` is whether zoning is non-empty; the summary is at most 3000 characters; the zone is never empty |
| DealSections.Foreclosure | main.py:1082-1085 | built exactly when narratives is a dict, and equal to the eight-quarter TBD analysis |
| DealSections.EitherText | main.py:1105-1109 | `x or y` shown as text, the first when truthy |
| DealSections.CaseRow | main.py:1104-1110 | a case row has the five case keys, all text |
| DealSections.LitigationCases | main.py:1094-1110 | every case row has the case keys; a single case dict becomes one row; a list gives the rows of its dict elements, in order, skipping the rest; it fails only with TypeError |
| DealSections.LitigationFallback | main.py:1114-1117 | with litigation the fallback counts the cases; without it reads "No active litigation identified." |
| DealSections.LitigationJson | main.py:1119-1123 | the litigation dict holds the flag, narrative and cases given |
| DealSections.ActiveLitigation | main.py:1089-1091 | a non-dict active litigation counts as an empty dict |
| DealSections.Litigation | main.py:1087-1123 | it fails only when the cases fail or the narratives are not a dict; the section has `has_litigation` (`exists`, or else whether there is any case row), `narrative` (the given one when truthy, otherwise the case-count or no-litigation sentence) and `cases` (the case rows) |
| DealSections.SingleCaseDict | main.py:1095-1112 | a single non-empty case dict gives one case and a truthy litigation flag |
| DealSections.NoLitigation | main.py:1089-1117 | with no active litigation and no narrative the section is empty with the fixed text |
| DealSections.ItemCaption | main.py:1138-1155 | the row caption is text |
| DealSections.CapSourceRow | main.py:1137-1141 | a capital-stack source row has its three keys and the item's caption |
| DealSections.TopSourceRow | main.py:1161 | a top-level source row has the source keys, the caption and the formatted rate |
| DealSections.CapUseRow | main.py:1154-1158 | a use row has the use keys, the caption and the category given |
| DealSections.TopUseRow | main.py:1162-1164 | a top-level use row is a use row under its own category |
| DealSections.CategoryItems | main.py:1148-1150 | a flat category without items is its own single item |
| DealSections.CapCategoryRows | main.py:1147-1158 | a category's rows have the use keys; a flat category gives exactly its own row |
| DealSections.CategoryRowsFrom | main.py:1147-1158 | a category gives one row per item dict; row j is the row of an item dict at or after position j, released under the category |
| DealSections.StackTable | main.py:1128-1130 | the table is the stack's `table` dict when there is one, else the stack itself |
| DealSections.CapitalStackFlat | main.py:1125-1165 | a truthy non-dict capital stack raises AttributeError; the title is non-empty and rows are shaped |
| DealSections.FlatOf | main.py:1128-1165 | the flattened stack has a non-empty title and shaped rows |
| DealSections.FlatRows | main.py:1125-1165 | for every capital stack that flattens: the title is the table's own or "Capital Stack at Closing"; the uses begin with the table's category rows in order; when the table gave source rows, they are the sources and the uses are exactly the table's |
| DealSections.OneCategory | main.py:1149-1158 | one flat category gives exactly its own use row |
| DealSections.DuplicatedUses | main.py:1142-1164 | a stack without `table` or sources whose uses hold one flat row lists that use twice |
| DealSections.DuplicatedUsesOf | main.py:1142-1164 | the same duplication, stated on the stack itself |
| DealSections.DisbursementRows | main.py:1167-1185 | a non-dict disbursement gives no rows; otherwise the eleven captioned rows show each key's value as text |
| DealSections.BlankDisbursement | main.py:1169-1185 | an empty disbursement gives eleven rows with empty values |
| DealTransform.FirstOf | main.py:1254-1258 | a chain `a or b or … or default` gives the first truthy candidate, the default when none is truthy, and never anything else truthy |
| DealTransform.MapValues | main.py:1316-1353 | a dict comprehension over items keeps the keys in order and maps every value |
| DealTransform.ShownText | main.py:1316-1353 | `str_or_empty` always gives text and shows None as "" |
| DealTransform.DictOr | main.py:1214 | a dict is kept, anything else counts as an empty dict |
| DealTransform.SectionsJson | main.py:1198-1212 | the sections dict has its thirteen keys in order, each holding its section |
| DealTransform.SectionsA | main.py:1199-1202 | the first four sections are built only when their inputs are dicts |
| DealTransform.SectionsB | main.py:1203-1206 | the next four sections are built only when the sponsor is a dict |
| DealTransform.SectionsC | main.py:1207-1211 | the last five sections start with the fixed validation flags |
| DealTransform.Joined | main.py:1198-1212 | the joined sections have the thirteen keys, validation flags ninth |
| DealTransform.Sections | main.py:1198-1212 | the sections dict has its thirteen keys and the fixed validation flags, and needs the core parts to be dicts |
| DealTransform.Head | main.py:1195-1213 | the output starts with cover, the `{{TOC}}` marker and the thirteen sections, with distinct keys |
| DealTransform.HeadJson | main.py:1195-1213 | the head has keys cover, toc, sections in order |
| DealTransform.ListOrEmpty | main.py:1220-1221 | a list is kept, anything else becomes an empty list |
| DealTransform.LoanIssues | main.py:1214-1222 | the issue keys are written, preceded by `loan_issues` when it is truthy; the two issue lists are lists; a truthy non-dict raises AttributeError |
| DealTransform.VentureItems | main.py:1226-1232 | an empty dict gives no ventures and a non-empty one gives truthy items |
| DealTransform.Ventures | main.py:1224-1239 | the ventures dict wraps exactly the ventures list; a list input is that list; a non-dict gives an empty disclosure |
| DealTransform.FlatPairs | main.py:1243-1246 | the capital-stack title, sources and uses are written separately and as one dict |
| DealTransform.RawCapital | main.py:1270-1274 | the raw capital-stack lists come from its table or its top level; a truthy non-dict stack raises AttributeError |
| DealTransform.SponsorRow | main.py:1253-1259 | a sponsor table row has its five keys |
| DealTransform.SponsorPairs | main.py:1260-1261 | the sponsor table is written with the rows given |
| DealTransform.SponsorTableItems | main.py:1249 | reading the sponsor table fails only with AttributeError or TypeError |
| DealTransform.SponsorTable | main.py:1249-1261 | one five-key row per dict in the sponsor table |
| DealTransform.MaxRows | main.py:1268 | `max(a, b, 1)` is at least 1, a and b, and is one of them |
| DealTransform.SourcesUsesPairs | main.py:1263-1268 | the maximum row count is the max of the two list lengths and 1 |
| DealTransform.SourcesUsesFields | main.py:1264-1268 | the five sources-and-uses keys hold the lists and the row count given |
| DealTransform.DisbursementPairs | main.py:1276-1287 | each disbursement variable is truthy exactly when its key is; a truthy non-dict disbursement raises AttributeError |
| DealTransform.DisbursementAgrees | main.py:1277-1315 | a truthy disbursement variable and the matching table row show the same text |
| DealTransform.Display | main.py:1292-1310 | a short value is kept; a long text shows the pattern's first match or "See Loan Terms" |
| DealTransform.RawRate | main.py:1291 | a truthy interest rate in the loan terms is used; otherwise the deal facts must be a dict (AttributeError) |
| DealTransform.DisplayPairs | main.py:1289-1310 | the three display values are written; failures are AttributeError |
| DealTransform.ClosingPairs | main.py:1312-1316 | the disbursement rows and a dict with the same keys and text values |
| DealTransform.Passed | main.py:1318-1319 | a value that is not None passes through; None becomes an empty dict |
| DealTransform.DueDiligenceOut | main.py:1322-1334 | the due-diligence dict has its eight keys, all text |
| DealTransform.CaseText | main.py:1345 | a sanitised case has only text values |
| DealTransform.CasesListed | main.py:1338-1342 | a dict or missing `cases` is replaced by a list |
| DealTransform.LitigationOut | main.py:1336-1346 | a non-dict active litigation passes through; a dict gets a list of cases with text values only |
| DealTransform.HighlightsOut | main.py:1348-1351 | highlights always have `items`, and highlights that had them are kept as is |
| DealTransform.InputPairs | main.py:1318-1351 | the input keys are written with the due-diligence and highlights dicts |
| DealTransform.PassedOut | main.py:1318-1319 | each of the four pass-through keys holds its passed value |
| DealTransform.InputJson | main.py:1318-1351 | the pass-through values come first, then due diligence, litigation and highlights |
| DealTransform.NarrativeBox | main.py:1361-1363 | a text narrative is wrapped in `{"narrative": …}` and a dict is kept |
| DealTransform.Reserves | main.py:1353-1355 | a truthy closing narrative is stored under `narrative`; otherwise the keys are the disbursement's |
| DealTransform.TailJson | main.py:1353-1364 | the tail keys hold the ratios, value, exit and foreclosure blocks given |
| DealTransform.NarrativePairs | main.py:1352-1364 | exit and foreclosure are dicts, LTC and LTV are truthy, and the property value is the valuation or an empty dict |
| DealTransform.DefaultOne | main.py:1376-1378 | defaulting one key fills it when missing or blank and touches nothing else |
| DealTransform.DefaultTermKept | main.py:1378 | the default text is not blank |
| DealTransform.WithDefaultsFills | main.py:1375-1378 | every defaulted key ends up present and not blank; other keys and present values are unchanged |
| DealTransform.FillDefaults | main.py:1375-1378 | the defaulting loop gives what its specification function gives |
| DealTransform.RawPairs | main.py:1371-1378 | the raw deal facts and leverage are the given dicts; the raw loan terms are the given ones with defaults |
| DealTransform.Runs | main.py:1195-1378 | one run of assignments per stage |
| DealTransform.KeysLaidLaid | main.py:1195-1378 | stages with their fixed keys lay out the output |
| DealTransform.FrontStages | main.py:1195-1274 | the first stages are the head, issues, ventures, capital stack, sponsor table, sources and uses and raw capital |
| DealTransform.BackStages | main.py:1276-1378 | the later stages keep the earlier ones and add disbursement, display, closing, inputs, narratives and raw values |
| DealTransform.StagesOf | main.py:1195-1378 | every stage is the value its own function gives, laid out with its fixed keys |
| DealTransform.Assemble | main.py:1195-1378 | the assembled output has distinct keys |
| DealTransform.AssembledFrom | main.py:1195-1378 | a key written in one stage and never later holds its last value there |
| DealTransform.AssembledAt | main.py:1195-1378 | the last write of a key in its last stage is what the output holds |
| DealTransform.SpreadLookup | main.py:1379-1387 | spreading only adds keys not already in the output |
| DealTransform.SpreadUnique | main.py:1379-1387 | spreading keeps keys distinct |
| DealTransform.SpreadInto | main.py:1379-1387 | the loop adding missing keys gives what its specification function gives |
| DealTransform.TransformSpec | main.py:1187-1401 | the transform succeeds exactly when all stages do and the deal's ventures list has a length (the debug print's `len`); when the stages succeed, the only failure is TypeError; the output keys are distinct |
| DealTransform.TemplateVars | main.py:1379-1387 | spreading the deal facts, the leverage and the loan terms into the assigned variables keeps the keys distinct |
| DealTransform.TemplateVarsLookup | main.py:1379-1387 | a variable holds what the stages assigned it, else the deal facts' value, else the leverage's, else the loan terms' |
| DealTransform.DebugPrinted | main.py:1389-1399 | the debug print passes the variables through unchanged exactly when the ventures list has a length, and raises TypeError otherwise |
| DealTransform.TransformValue | main.py:1187-1401 | a transform that succeeds had all stages succeed, and gives the template variables of those stages |
| DealTransform.VenturesListSized | main.py:1231-1239 | only a `collaborative_ventures` dict can make the debug print's `len` (main.py:1393) fail: then it fails exactly when its truthy `items` is not a string, dict, list or tuple |
| DealTransform.UnsizedVentures | main.py:1231-1239 | the deal `{"collaborative_ventures": {"items": 7}}` makes the debug print's `len` (main.py:1393) raise TypeError |
| DealTransform.TransformLookup | main.py:1379-1387 | a key the transform did not write comes from deal facts, then leverage, then loan terms |
| DealTransform.TransformBuilt | main.py:1379-1387 | a key the transform wrote keeps that value |
| DealTransform.TransformToc | main.py:1197 | `toc` is the `{{TOC}}` marker |
| DealTransform.TransformSections | main.py:1198-1212 | `sections` has its thirteen keys and none is `loan_terms`, so the markdown strip of that section never runs |
| DealTransform.NoLoanTermsSection | main.py:1365 | the section keys do not include `loan_terms` |
| DealTransform.HeadSurvives | main.py:1197-1198 | toc and sections are never overwritten |
| DealTransform.VenturesSurvive | main.py:1224-1239 | the ventures values are never overwritten |
| DealTransform.CapitalStackSurvives | main.py:1246 | the combined capital stack is never overwritten |
| DealTransform.RawCapitalSurvives | main.py:1272-1273 | the raw capital-stack lists overwrite the flattened ones and are not overwritten again |
| DealTransform.SourcesUsesSurvive | main.py:1264-1268 | the sources and uses lists and row count are never overwritten |
| DealTransform.RawSurvives | main.py:1373-1378 | the defaulted loan terms are the final `loan_terms_raw` |
| DealTransform.InputsSurvive | main.py:1325-1349 | due diligence and highlights are never overwritten |
| DealTransform.IssueListsSurvive | main.py:1220-1221 | the two issue lists survive as lists |
| DealTransform.TailSurvives | main.py:1357-1358 | LTC and LTV are never overwritten |
| DealTransform.IssuesSurvive | main.py:1220-1221 | the issue lists keep the values written |
| DealTransform.TransformLoanIssueLists | main.py:1220-1221 | the output holds both issue lists as lists |
| DealTransform.TransformVentures | main.py:1224-1239 | the ventures dict wraps the ventures list, which is the input list when one is given |
| DealTransform.TransformCapitalStack | main.py:1242-1273 | the combined capital stack is the flattened one while the separate lists are the raw ones |
| DealTransform.TransformMaxRows | main.py:1264-1268 | the row count is the max of the two list lengths and 1 |
| DealTransform.RawLoanTerms | main.py:1373-1378 | the raw loan terms are the given ones with defaults |
| DealTransform.TransformLoanTermsRaw | main.py:1373-1378 | `loan_terms_raw` is the loan terms with every defaulted key filled |
| DealTransform.TransformInputs | main.py:1322-1351 | due diligence and highlights are the normalised dicts |
| DealTransform.TransformRatios | main.py:1357-1358 | LTC and LTV are always truthy |
| DealTransform.TransformKeepsInputs | main.py:1379-1387 | every key of the deal facts, leverage or loan terms appears in the output |
| DealMapper.DealInputMapper.constructor | main.py:684-704 | the mapper's state is the deal with every section read as `x or {}` |
| DealMapper.DealInputMapper.FillSectionsInPlace | main.py:710-740 | the fields are updated as the pure fill steps say, or AttributeError |
| DealMapper.DealInputMapper.FillFiguresInPlace | main.py:712-720 | the figure fields are updated as the pure steps say, or AttributeError |
| DealMapper.DealInputMapper.FillIdentityInPlace | main.py:721-740 | cover and property are updated as the pure steps say, or AttributeError |
| DealMapper.DealInputMapper.NormalizeFromLayer3 | main.py:707-754 | the fields end as the pure normalisation gives, or AttributeError |
| DealMapper.DealInputMapper.Transform | main.py:1187-1401 | the output is the transform of the current state (so it fails with TypeError when the ventures list has no length), with distinct keys |
| DealMapper.DealInputMapper.Create | main.py:684-705 | construction succeeds exactly when the pure constructor does, leaving a fresh mapper in its state; a non-dict sponsor raises AttributeError in the debugging print |
| Heap.PyDict.constructor | main.py:1641 | a new dict holds exactly the entries given |
| Heap.HasAt | main.py:1645-1647 | every stored key is present |
| Heap.Put | main.py:1647 | assigning a new key appends it at the end |
| Heap.FindPut | main.py:1647 | after assigning a key it holds the new value and every other key is unchanged |
| Heap.Drop | main.py:1642 | `pop` leaves the key absent |
| Heap.FindDrop | main.py:1642 | `pop` leaves every other key unchanged |
| Heap.ItemsList | main.py:1736-1773 | `list(d.items())` has one `(key, value)` pair per entry, in order |
| Heap.AddItemsShape | main.py:1772-1773 | afterwards `items` is present: an existing `items` is kept, otherwise the pair list is appended |
| Heap.AddItemsIdempotent | main.py:1772-1773 | adding `items` twice is the same as once |
| Heap.ItemsListRefs | main.py:1773 | the pair list refers to exactly the dicts the entries refer to |
| Heap.AddItemsRefs | main.py:1773 | adding `items` adds no new reference |
| Heap.EnsureItems | main.py:1766-1776 | one recursive call changes only dicts it newly marks as seen, each gaining `items` unless it is the root, and marks every dict reachable from its value |
| Heap.DictValues | main.py:1770 | `d.values()` in order |
| Heap.VisitDict | main.py:1768-1773 | a dict's visit marks it, visits its values, then gives it `items` unless it is the root |
| Heap.VisitList | main.py:1774-1776 | a list's visit visits every item |
| Heap.EnsureItemsOnDicts | main.py:1762-1776 | every dict reachable from the object, except the root itself, has `items` afterwards; each changed dict changes only by `AddItems`; the visited set is the smallest closed one |
| Heap.EnsureItemsTwice | main.py:1762-1776 | a second pass over the same object changes nothing |
| Heap.PassedAfter | main.py:1762-1776 | after the pass, a loaded value holds at every depth reached through dict values and list items the same keys and values, each dict followed by an `items` list of its pairs when it had no `items` |
| Heap.FindOr | main.py:1651-1672 | `d.get(k, default)` finds the stored value or the default, referring to nothing new |
| Heap.OrVal | main.py:1642-1667 | `a or b` gives a when truthy, else b |
| Heap.GetVal | main.py:1654-1713 | `.get` works on a dict or a wrapper, and raises AttributeError on anything else |
| Heap.LenVal | main.py:1723 | `len` of a dict counts its entries; a value without length raises TypeError |
| Heap.PutRefs | main.py:1647 | assigning a value adds only that value's references |
| Heap.HasIn | main.py:1646 | a key is present exactly when it is among the entry keys |
| Heap.PutAt | main.py:1794-1797 | with distinct keys, assigning an existing key replaces it in place |
| Heap.FindIndexOf | main.py:1792-1797 | a present key sits at some index holding its value |
| Heap.Snapshot | main.py:1785-1805 | reading back a dict gives an object and a list gives an array; a plain value is itself; a cycle raises RecursionError |
| Heap.SnapshotItems | main.py:1785-1805 | reading back a list gives one element per item |
| Heap.SnapshotFields | main.py:1785-1805 | reading back entries keeps the keys in order |
| Heap.EntryKeys | main.py:1755-1756 | the entry keys in order |
| Heap.StoreOf | main.py:1762-1776 | the store holds each given dict with the entries it has now |
| Heap.DenotesExtend | main.py:1779-1785 | what a loaded value holds does not change when more dicts are added to the store |
| Heap.Load | main.py:1779-1785 | a request value loads into fresh dicts, none shared, that hold it all the way down: dicts with the same keys in order, lists of the same items, the same scalars |
| Heap.LoadItems | main.py:1779-1785 | a list loads item by item into fresh dicts, each item holding its value all the way down |
| Heap.LoadFields | main.py:1779-1785 | an object loads into entries with the same keys in order, each holding its value all the way down |
| Heap.WithItemsList | main.py:1734-1736 | the wrapper's copy has a list under `items`, and a copy that already had one is unchanged |
| Heap.ItemsView.constructor | main.py:1733-1736 | the wrapper holds a fresh copy of the dict with `items` made a list |
| Heap.ItemsView.GetItem | main.py:1738-1739 | `w[k]` succeeds exactly for a present key and raises KeyError otherwise |
| Heap.ItemsView.Get | main.py:1741-1742 | `w.get(k, default)` gives the stored value or the default |
| Heap.ItemsView.Attr | main.py:1729-1759 | `w._d` is the wrapped copy, `w.__slots__` is `("_d",)`, each of the class's methods (`get`, `keys`, `values`, …) is found on the class, `w.items` is the list stored under `items`, and any other attribute is `get(k)` |
| Heap.ItemsView.Keys | main.py:1755-1756 | one key per entry, each contained in the wrapper |
| Heap.ItemsView.Values | main.py:1758-1759 | the values of the entries, in order |
| Flatten.KeepsTrans | main.py:1641-1682 | steps that only add keys compose |
| Flatten.PutKeeps | main.py:1647 | assigning a missing key keeps every existing one |
| Flatten.KeepsHas | main.py:1641-1682 | a key kept stays present |
| Flatten.FindAppend | main.py:1645-1647 | in concatenated entries the first occurrence wins |
| Flatten.FindSpread | main.py:1645-1647 | spreading a section adds only keys not already there |
| Flatten.SpreadKeeps | main.py:1645-1647 | spreading keeps every existing key |
| Flatten.SpreadAppend | main.py:1643-1647 | spreading two sections in turn equals spreading them together |
| Flatten.SectionFieldsMiss | main.py:1643-1647 | a key no dict section holds is not spread |
| Flatten.SectionFieldsFind | main.py:1643-1647 | a key is spread from the first dict section holding it |
| Flatten.EarliestSectionWins | main.py:1643-1647 | a key missing from the top level takes its value from the earliest section that holds it |
| Flatten.SpreadMiss | main.py:1643-1647 | a key no section holds stays absent |
| Flatten.SpreadSections | main.py:1643-1647 | the spreading loop gives what its specification function gives |
| Flatten.ApplyAliases | main.py:1648-1650 | the alias loop gives what its specification function gives |
| Flatten.LeverageAlias | main.py:1634-1650 | `leverage` is copied from `leverage_metrics` only when missing; nothing else changes |
| Flatten.CopyIfAbsent | main.py:1655-1665 | a section is copied under its key only when the key is missing and the section exists |
| Flatten.FindCopyAll | main.py:1659-1661 | each named section is copied when missing at the top level |
| Flatten.CopyNamedSections | main.py:1659-1661 | the named-section loop copies exactly the missing ones |
| Flatten.NamedSectionCopied | main.py:1659-1661 | an existing named section ends up present |
| Flatten.SpreadRefs | main.py:1645-1647 | spreading refers only to dicts already referred to |
| Flatten.DropRefs | main.py:1642 | popping refers to nothing new |
| Flatten.PutFacts | main.py:1647 | assigning adds only the value's references and changes only that key |
| Flatten.CopySponsor | main.py:1651-1654 | `sponsor` is the sponsorship section when missing; `sponsors` is its truthy `_sponsors_detail` or `[]`; a non-dict sponsorship raises AttributeError |
| Flatten.DeriveIfAbsent | main.py:1666-1672 | a derived key is set from the section's field (or its fallback) only when missing; a non-dict section raises AttributeError |
| Flatten.CopyAllRefs | main.py:1659-1661 | copying sections refers to nothing new |
| Flatten.CopySections | main.py:1651-1665 | after copying, every existing named section and, with a sponsorship, `sponsor` and `sponsors` are present; no key outside the copied ones changes; it fails exactly when the sponsor copy fails |
| Flatten.DeriveOverviews | main.py:1662-1672 | existing location, market and sponsorship sections give their overview and financial keys; no key outside the derived ones changes |
| Flatten.DeriveNarratives | main.py:1666-1672 | a sponsorship gives `financial_info` and `guarantor_financials`; no key outside the three derived ones changes |
| Flatten.ScenarioEntries | main.py:1674-1678 | a scenario always has list `rows` and `items`; a falsy or non-dict scenario becomes empty rows; other keys are kept |
| Flatten.ForeclosureGet | main.py:1673-1682 | reading a scenario raises AttributeError exactly when the foreclosure analysis is truthy but not a dict |
| Flatten.AddScenario | main.py:1679-1682 | a missing scenario key gets a fresh scenario dict; other keys are unchanged |
| Flatten.RawStep | main.py:1691-1694 | a raw dict's keys are added only where missing |
| Flatten.RawSpread | main.py:1690-1694 | spreading the raw dicts keeps every existing key |
| Flatten.RawFirstWins | main.py:1690-1694 | a missing key held by `deal_facts_raw` takes that value |
| Flatten.SpreadRaw | main.py:1690-1694 | the raw spreading loop gives what its specification function gives |
| Flatten.SpreadFields | main.py:1692-1694 | the loop that copies a dict's missing keys into the root gives what the spreading function gives |
| Flatten.Override | main.py:1697-1702 | a present raw key overrides its target; nothing else changes |
| Flatten.OverrideRaw | main.py:1697-1702 | each of deal facts, leverage and loan terms equals its raw version when present; other keys are unchanged |
| Flatten.RateAsText | main.py:1705-1707 | a dict interest rate becomes its `description`, or its `str` when it has none; other keys are unchanged |
| Flatten.NormalizeRate | main.py:1704-1707 | the loan terms dict is updated in place as that function says, changing only `interest_rate` |
| Flatten.WithNarrative | main.py:1710-1718 | `narrative` is copied from the source key only when missing |
| Flatten.AliasNarrative | main.py:1709-1718 | the section dict is updated in place as that function says, changing only `narrative` |
| Flatten.LoanTermsNarrative | main.py:1713 | a non-dict `narratives` raises AttributeError; no narratives gives "" |
| Flatten.SetLoanTermsNarrative | main.py:1712-1715 | a truthy loan-terms narrative is stored in the loan terms dict in place; it fails exactly when the loan terms are a dict and `narratives` is not, leaving the dict as it was |
| Flatten.LitigationNarrative | main.py:1719-1725 | a missing narrative becomes the case count text or "No active litigation."; an existing one is kept; a truthy `cases` without length raises TypeError |
| Flatten.SetLitigationNarrative | main.py:1719-1725 | the litigation dict is updated in place as that function says; it fails exactly when that function does, leaving the dict as it was |
| Flatten.WithOverview | main.py:1686-1688 | a falsy overview narrative becomes the sponsor name or "See Sponsor Details"; nothing else changes |
| Flatten.SetSponsorOverview | main.py:1686-1688 | a truthy sponsorship dict is updated in place as that function says |
| Flatten.DistinctKeys | main.py:1679-1702 | the scenario keys, `sections` and the override targets do not collide |
| Flatten.SectionDictsRefs | main.py:1643-1644 | the dict sections are among the referred dicts |
| Flatten.SpreadedKeepsInput | main.py:1641-1647 | every input key other than `sections` keeps its value after the spreading |
| Flatten.SpreadedEarliestSection | main.py:1641-1647 | a key missing at the top level takes the earliest section's value |
| Flatten.CopyFromSections | main.py:1651-1672 | the section copies keep every existing key and change no key outside the copied and derived ones |
| Flatten.OnlyTrans | main.py:1651-1672 | steps that each change only their own keys together change only the union |
| Flatten.AddScenarios | main.py:1673-1682 | both scenario keys are present afterwards; a key that was missing holds a new dict whose `rows` and `items` are one list; no other key changes |
| Flatten.CopiesAndScenarios | main.py:1651-1682 | the copies keep every existing key; a scenario key the copies did not supply holds a new dict whose `rows` and `items` are one list |
| Flatten.Gather | main.py:1651-1702 | only the replaced keys change; `sections` is the sections dict; both scenarios exist, and one that was missing holds a new dict whose `rows` and `items` are one list; a truthy sponsorship dict gets its overview narrative filled in place; each override target equals its raw source |
| Flatten.GatherKeeps | main.py:1684-1702 | keys outside the replaced ones survive gathering |
| Flatten.ScenarioKept | main.py:1684-1702 | a scenario keeps its value through the later steps |
| Flatten.RawAndOverrides | main.py:1690-1702 | the raw spread and overrides change only the targets, and each target equals its raw source |
| Flatten.FixedLoanTerms | main.py:1703-1715 | the loan terms end with the rate as text and, when the narrative is truthy, that narrative; nothing else changes |
| Flatten.FixLoanTerms | main.py:1703-1715 | when the dicts are apart, it fails exactly when the loan-terms narrative cannot be read; the loan terms and the property overview end as their fixes make them; the zoning and litigation are untouched |
| Flatten.FixLitigation | main.py:1716-1725 | the litigation ends with a narrative on success; when apart, it fails exactly when the case count cannot be taken; the zoning and the litigation end as their fixes make them |
| Flatten.FixNarratives | main.py:1703-1725 | fails only with AttributeError or TypeError; the litigation ends with a narrative on success; when the dicts are apart, it fails exactly when one of the two steps does, and each of the four dicts ends as its own fix makes it from what it held before (zoning untouched after a loan-terms failure) |
| Flatten.GatherFixed | main.py:1651-1725 | what `Gather` states, with the litigation ending with a narrative; a new scenario dict and the sponsorship keep what `Gather` gave them unless also held under a fixed key |
| Flatten.FlattenSchema | main.py:1639-1726 | a truthy `sections` that is not a dict raises; on success `sections` is a dict (the given one when truthy), both scenarios exist (a missing one as a new dict whose `rows` and `items` are one list, unless it is also held under a fixed key), input keys outside the replaced ones keep their values, each override target equals its raw source, and the litigation has a narrative |
| Preprocess.StripMarkdown | main.py:1454-1468 | a falsy value is returned unchanged; truthy text gives stripped text; a truthy non-text raises TypeError |
| Preprocess.NarrativeOf | main.py:1503-1505 | a present section stays present after its narrative is stripped; only TypeError can arise |
| Preprocess.StripNarrative | main.py:1502-1505 | one section's narrative strip succeeds exactly when its narrative can be stripped |
| Preprocess.StripNarratives | main.py:1502-1505 | the pass over the narrative sections fails only with TypeError |
| Preprocess.NarrativeSectionsDistinct | main.py:1493-1501 | the seven narrative sections are distinct |
| Preprocess.StripTruthy | main.py:1509-1510 | stripping one disclosure fails, with TypeError, exactly when the key is present and `strip_markdown` rejects its value |
| Preprocess.StripAll | main.py:1508-1510 | stripping the disclosures fails only with TypeError |
| Preprocess.StripSponsor | main.py:1514-1517 | stripping one sponsor's bios fails only with TypeError |
| Preprocess.StripSponsors | main.py:1513-1517 | every sponsor is kept, in order |
| Preprocess.StripSponsorBios | main.py:1513-1517 | stripping the sponsor bios fails only with TypeError |
| Preprocess.DisplayValues | main.py:1520-1533 | there are five display values |
| Preprocess.DisplaysOf | main.py:1522-1527 | five display values from a loan-terms dict |
| Preprocess.DisplayKeysDistinct | main.py:1523-1533 | the five display keys are distinct |
| Preprocess.Preprocess | main.py:1482-1541 | preprocessing fails only with TypeError |
| Preprocess.StripEach | main.py:1508-1510 | the disclosure loop gives `StripAll`: each listed key holds its value after `strip_markdown` (`StripAllStores`), and no other key changes (`StripAllKeeps`) |
| Preprocess.StripAllStops | main.py:1508-1510 | the first failing disclosure ends the loop with that error |
| Preprocess.StripEachNarrative | main.py:1502-1505 | the narrative loop gives `StripNarratives`: each section holds its stripped narrative and no other key changes (`StripNarrativesKeeps`) |
| Preprocess.StripEachSponsor | main.py:1513-1517 | the sponsor loop gives `StripSponsors`: every sponsor, at its own place, with its bios stripped and its other fields kept (`StripSponsorsStores`) |
| Preprocess.SponsorsStop | main.py:1513-1517 | the first failing sponsor ends the loop with that error |
| Preprocess.StripBios | main.py:1513-1517 | the bios step gives `StripSponsorBios`: every sponsor of a list or tuple has its bios stripped (`StripSponsorBiosStores`), and nothing but `sponsors` changes (`StripSponsorBiosKeeps`) |
| Preprocess.PreprocessLayer3 | main.py:1482-1541 | the whole preprocessing gives `Preprocess`, whose result holds the stripped narratives, disclosures and bios, the display values and the named firm, with every other key kept (the `Preprocess*` lemmas) |
| Preprocess.NarrativesStop | main.py:1502-1505 | the first failing section ends the loop with that error |
| Preprocess.KeepsOthersTrans | main.py:1482-1541 | keys untouched by two steps are untouched by both |
| Preprocess.SetKeeps | main.py:1523-1533 | assigning a key stores the value and keeps every other key |
| Preprocess.StripNarrativeKeeps | main.py:1502-1505 | stripping one section touches only that section, which holds its stripped narrative |
| Preprocess.StripNarrativesKeeps | main.py:1502-1505 | the narrative pass touches only the named sections, each holding its stripped narrative |
| Preprocess.StripTruthyKeeps | main.py:1509-1510 | stripping one disclosure touches only that key |
| Preprocess.StripAllKeeps | main.py:1508-1510 | the disclosure pass touches only the disclosure keys |
| Preprocess.StripSponsorBiosKeeps | main.py:1513-1517 | the bios pass touches only `sponsors` |
| Preprocess.SplitLast | main.py:1502 | a sequence's last key and the rest make up its key set |
| Preprocess.SetEachKeeps | main.py:1523-1533 | setting the display keys touches only them |
| Preprocess.SetEachStores | main.py:1523-1533 | each distinct display key holds its value |
| Preprocess.SetDisplaysKeeps | main.py:1520-1533 | the display step touches only the display keys and stores the five display values of the loan terms |
| Preprocess.NameBackgroundFirmKeeps | main.py:1536-1539 | the due-diligence step touches only `due_diligence` |
| Preprocess.PreprocessKeepsOthers | main.py:1482-1541 | every key outside the touched ones is unchanged |
| Preprocess.SectionApart | main.py:1493-1533 | narrative sections are not disclosures, sponsors, display keys or due diligence |
| Preprocess.FirmApart | main.py:1493-1536 | `due_diligence` is not a narrative section, disclosure or display key |
| Preprocess.DisplaysOfAgree | main.py:1522-1527 | display values depend only on the loan-terms keys they read |
| Preprocess.DisplaysIgnoreNarrative | main.py:1505-1527 | replacing the loan terms' narrative leaves the display values unchanged |
| Preprocess.PreprocessNarratives | main.py:1502-1505 | each narrative section of the result holds the stripped narrative of the input |
| Preprocess.AfterNarrativesKeep | main.py:1508-1539 | keys outside the later steps keep their values through them |
| Preprocess.DisplaysThroughNarrative | main.py:1505-1527 | stripping the loan terms' narrative does not change the display values |
| Preprocess.LoanTermsKept | main.py:1508-1517 | the disclosure and bios steps leave `loan_terms` alone |
| Preprocess.DisplaysKept | main.py:1520-1539 | the due-diligence step keeps the display values |
| Preprocess.PreprocessDisplays | main.py:1519-1533 | each display key holds the value computed from the input's loan terms, as read before the narrative strip |
| Preprocess.NameBackgroundFirmNames | main.py:1536-1539 | a due-diligence dict with `background_check` and no `background_check_firm` gains the firm with the same value; otherwise it is unchanged |
| Preprocess.PreprocessFirm | main.py:1535-1539 | the result's due diligence is the input's with the firm named as above |
| Preprocess.StripTruthyStores | main.py:1509-1510 | the key stays absent when absent; otherwise it holds what `strip_markdown` makes of its value |
| Preprocess.StripAllStores | main.py:1508-1510 | with distinct keys, each key holds what `strip_markdown` makes of its original value |
| Preprocess.StripSponsorStores | main.py:1514-1517 | a dict sponsor keeps every non-bio field and each bio holds its stripped value; a non-dict sponsor is unchanged |
| Preprocess.StripSponsorsStores | main.py:1513-1517 | each sponsor of the list is stripped as one sponsor is, at its own place |
| Preprocess.StripSponsorBiosStores | main.py:1513-1517 | a list or tuple of sponsors keeps its kind and length with every sponsor stripped; anything else under `sponsors` is unchanged |
| Preprocess.DisclosuresDistinct | main.py:1508-1510 | the two disclosure keys are distinct |
| Preprocess.DisclosureApart | main.py:1493-1536 | a disclosure is not a narrative section, `sponsors`, a display key or `due_diligence` |
| Preprocess.SponsorsApart | main.py:1493-1533 | `sponsors` is not a narrative section, disclosure or display key |
| Preprocess.AfterBiosKeep | main.py:1519-1539 | the display and firm steps leave every other key alone |
| Preprocess.PreprocessDisclosures | main.py:1508-1510 | each disclosure of the result is the input's value after `strip_markdown`, or absent when the input lacks it |
| Preprocess.PreprocessBios | main.py:1513-1517 | the result's sponsors are the input's, each dict sponsor with its three bios stripped and its other fields kept |
| Assembly.LastAssignedEscaped | main.py:1787 | escaping the record keeps, for every key, its last written value, escaped |
| Assembly.ContextLookup | main.py:1788-1790 | the merged context has one entry per key; an image key holds its image; any other key holds the record's escaped value; `images` is always present, `[]` when neither side had it |
| Assembly.HasKeyAppend | main.py:1788 | a key is in the merge of two dicts exactly when it is in either |
| Assembly.WrappedKeys | main.py:1733-1736 | a wrapped dict shows its keys followed by `items`, added only when missing |
| Assembly.PutKeys | main.py:1794-1797 | replacing a present key keeps the keys and their order |
| Assembly.WrapTopLevel | main.py:1792-1794 | the context keeps its keys; no top-level plain dict remains; each dict value is replaced by a fresh wrapper of it; every other value is unchanged |
| Assembly.NotHeld | main.py:1792-1794 | the context dict is none of its own values |
| Assembly.KeyLeaves | main.py:1797 | one string per key, in order |
| Assembly.Coerce | main.py:1797 | a non-list `sponsors` always becomes a list |
| Assembly.WrappedSponsorsAreKeys | main.py:1795-1797 | a wrapped dict `sponsors` becomes the list of its keys, `items` included, not its values |
| Assembly.CoerceSponsors | main.py:1795-1797 | a present non-list `sponsors` is replaced by its coercion; otherwise the context is unchanged |
| Assembly.ClearIssuesShape | main.py:1798-1802 | after the fix each listed key that is present holds `None` or a list; the other keys keep their values; no key is added or removed |
| Assembly.FixLoanIssues | main.py:1798-1802 | a dict `loan_issues` gets the issue lists cleared as above; nothing else changes |
| Assembly.LoanIssuesNeverDict | main.py:1792-1802 | once the top level is wrapped `loan_issues` is never a plain dict, so the fix changes nothing |
| Assembly.UniqueDistinct | main.py:1788 | a dict's keys are distinct |
| Assembly.LoadContext | main.py:1788-1791 | the context loads into a fresh dict with the same keys in order; after the `items` pass each value holds its source all the way down, every nested dict with `items` added |
| Assembly.AddItemsToContext | main.py:1791 | the top-level entries are unchanged, and each value, down to every nested dict reached through dicts and lists, holds what it was loaded from with `items` added |
| Assembly.WrapContext | main.py:1792-1797 | after wrapping and the sponsors coercion the renderer is given every key in order and no plain dict; each top-level dict is a wrapper around its entries after the `items` pass, with `items` a list; every nested value holds its source with `items` added; `sponsors` is a list, a dict's keys when it was a dict |
| Assembly.ShownKeys | main.py:1733-1736 | a wrapped dict shows its own keys, then `items` when it had none |
| Assembly.PrepareContext | main.py:1788-1802 | the whole preparation yields a fresh context presenting the merged dict, at every depth, as above |
| Assembly.RefsHeld | main.py:1791-1797 | a value's dicts are among the context's |
| Assembly.SponsorCoerced | main.py:1795-1797 | a shown `sponsors` coerces to a list shown as required |
| Assembly.SponsorReplaced | main.py:1797 | replacing `sponsors` by a properly shown list keeps the context presented |
| Assembly.NoSponsorsPresented | main.py:1795 | without `sponsors` the wrapped context is presented as it is |
| Assembly.SponsorCoercedAt | main.py:1795-1797 | coercing `sponsors` where it sits keeps the context presented |
| Assembly.CoercedShown | main.py:1795-1797 | the sponsors step always leaves the context presented |
| Assembly.Respond | main.py:1803-1812 | a render failure becomes HTTP 400 with "Template rendering failed: " and the message; a rendered document is returned as is |
| Assembly.SnapshotKeepsDict | main.py:1785-1787 | a dict stored under a key reads back as an object under that key |
| Assembly.FlattenRecord | main.py:1785 | flattening fails only with AttributeError, TypeError or RecursionError; on success `sections` is an object and both interest scenarios are present |
| Assembly.ReadBack | main.py:1785-1787 | reading back keeps the keys in order, `sections` an object and both scenarios; only a cycle makes it fail |
| Assembly.FillTemplate | main.py:1779-1812 | failures are flattening errors; otherwise the flattened record has `sections` and both scenarios, the renderer is given the escaped record merged with the images as presented above, every nested string escaped and every nested dict with `items`, and the outcome is the renderer's document or the HTTP 400 |

## Left out

- Values.Add: floats are exact reals, so `+` and `-` on floats (`Values.Add`, `Values.Sub`) are exact, and their range is unbounded. Python's `float(10**400)` raises OverflowError, which neither `parse_currency_to_number` (main.py:96) nor `_format_currency` (main.py:140-149, which catches only ValueError and TypeError) catches, and `float("1e400")` is `inf`, shown as "$infM"; the model gives an exact finite amount in both cases.
- Numbers.FormatFixed: rounds the exact decimal half-even, so `Helpers.FormatPercent` gives "2.68%" for 2.675 where Python's binary float gives "2.67%".
- Numbers.FloatRepr: writes the shortest exact decimal and never uses exponent notation. It gives "0.3" for 0.1 + 0.2 (Python: "0.30000000000000004") and a positional string for 1e16 (Python: "1e+16").
- Numbers.ParseFloat: rejects "inf", "nan" and digits with underscores, so `Helpers.ParseCurrency("1_000")` is 0.0 where Python gives 1000.0.
- Text.Lower: ASCII-only. Python lowers Unicode letters too, so the sponsorship name keys of "JOSÉ" and "josé" differ in the model.
- Numbers.IsDigit: ASCII-only. Python's `\d` and `int()` also accept other Unicode digits.
- The `print` debugging output (main.py:957-1007, 1389-1399) is left out. Two of its `print`s can raise and are kept: the constructor's `.get` on the sponsor, as `DealMapper.DealInputMapper.Create`'s AttributeError, and the transform's `len` of the ventures list, as `DealTransform.TransformSpec`'s TypeError.
- The clock. The cover dates that come from `datetime.now()` (main.py:192, 815) are a `today`/`date` parameter.
- The HTTP endpoints, request models, S3, template download, output naming and image preparation (main.py:1413-1449, 1547-1629, 1818-2102) are I/O and are not part of this model. The prepared images are a parameter of `Assembly.FillTemplate`, holding opaque values.
- `DocxTemplate` rendering is an abstract function of the top-level context entries that returns a document or an error message. Saving the document is not part of this model.
- The regex-based `strip_markdown` (main.py:1454-1468) and the mapper's `_strip_markdown` (main.py:790-803) are abstract `string -> string` parameters (`Preprocess.Markdown`, `DealTransform.Externals.stripMarkdown`). Nothing is claimed about their idempotence.
- The regex searches for rates and fees (main.py:1293-1309) are the abstract parameters `DealTransform.Externals.rateMatch` and `feeMatch`. `DealTransform.Display` is stated over them.
- Heap.Snapshot: `fill_template` escapes a dict graph that may share sub-dicts. The model reads the graph back into a tree, unfolding the sharing, and raises RecursionError on a cycle. That error is reachable only through a cycle, and the model does not prove that flattening never creates one.
- DealState.FillNarratives: the source writes the placeholder overview into the caller's own `narratives` dict (main.py:754). The model returns a new state and leaves the caller's deal untouched, so that change to the caller's dict is not modelled.
- DealTransform.LitigationOut: when `cases` is neither a dict nor None, the source assigns the sanitised cases into the caller's own `active_litigation` dict (main.py:1345). The model returns the new section and leaves the caller's deal untouched, so that change to the caller's dict is not modelled.
- Heap.ItemsView.Attr: a method found on the class is an opaque value, not a callable. The names every object inherits (`__class__`, `__doc__`, `__module__`, `__repr__` and the rest) read like `.get` in the model, whereas Python finds them on `object` first.
- Heap.PassedAfter: `Heap.Passed`, which it and `Assembly.PrepareContext` and `Assembly.FillTemplate` state, does not step into tuples, so for a tuple only its length is stated. A request decoded from JSON holds no tuple.
- Assembly.CoerceSponsors: an opaque value (an image handle) under `sponsors` is taken to be non-iterable, so it becomes `[]`.
- Preprocess.Preprocess: the deep copy at the start is implicit, because the model works on values. Its ensures states only the error kind. The lemmas `Preprocess.PreprocessKeepsOthers`, `PreprocessNarratives`, `PreprocessDisclosures`, `PreprocessBios`, `PreprocessDisplays` and `PreprocessFirm` state what each key of the result holds.
- Flatten.FixNarratives: the final content of each fixed dict (the loan terms, property overview, zoning and litigation) is stated only when they are four distinct objects and the narratives and litigation cases are none of them (`Flatten.Apart`), as in a record decoded from JSON. When they share an object, only the frame, the error kinds and the litigation narrative are stated. `Flatten.FixLoanTerms` and `Flatten.FixLitigation` carry the same condition.
- Flatten.FlattenSchema: a new scenario dict is stated to hold one list under `rows` and `items` only when the root does not also hold that dict under one of the four fixed keys. The model does not prove that the raw spread cannot put it there. The sponsorship overview fill is stated on `Flatten.Gather` and `Flatten.GatherFixed`, not here. `Flatten.GatherFixed` carries the same condition for the scenario dicts and the sponsorship.
- Assembly.FillTemplate: its ensures ties the flattened record to the input data only through `Flatten.FlattenSchema`'s contract (the `sections` object and both interest scenarios). It does not restate every flattening step.
- The `/fill` endpoints that call `preprocess_layer3_data` and then `fill_template` are HTTP handlers. They are not a member; the two halves are `Preprocess.PreprocessLayer3` and `Assembly.FillTemplate`.
