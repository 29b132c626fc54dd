# ATGQL core algorithms in Dafny

This project models the self-contained algorithms and the AST data model of ATGQL, a Python port of
graphql-js, and proves properties of them:

- **Lexical distance and suggestions** (`suggestion_list.dfy`, module `Suggestions`).
  - `LexicalDistance` is a class. It holds the lower-cased input and three rolling rows in a `3 × (|input|+1)` array.
  - `Measure` overwrites those rows in place. It is proved to return the optimal-string-alignment distance `Dist`
    when that is within the threshold, and `None` otherwise. The early exit is proved sound.
  - `SuggestionList` fills a dictionary in a loop, then ranks its keys: by distance, with ties broken by natural order.
- **Natural-sort comparison** (`natural_compare.dfy`, module `NaturalSort`): the two-index scanner as a `while`
  loop, proved equal to a recursive specification.
- **Block strings** (`block_string.dfy`, module `BlockString`).
  - `is_blank`, `get_block_string_indentation` and `dedent_block_string_value` are loops.
  - `print_block_string` is a function, with a reader that recovers its body.
  - The indentation scan keeps the source's behaviour: only `\r` ends a line there, and the common indent is also
    cut from the first line.
- **Message helpers**: `did_you_mean` (`did_you_mean.dfy`), `trunc_str`/`trunc_list` (`inspect.dfy`) and
  `print_path_array` (`print_path_array.dfy`).
- **Response paths** (`path.dfy`): the `Path` linked list, `add_path`, and the flattening loop `path_to_array`.
- **Keyed maps** (`key_map.dfy`, `key_val_map.dfy`): dictionaries built by a loop in which the last item wins.
- **`Array.splice`** (`shims.dfy`): Python slice arithmetic, which returns a new list.
- **`Source`** (`source.dfy`): a class whose construction validates the location offset. `NewSource` returns the
  `dev_assert` failure as an error result.
- **AST** (`ast.dfy`).
  - Tokens and locations, with their JSON views.
  - One datatype per node class, each carrying its fixed `kind` tag.
  - The unions `TypeNode`, `ValueNode` and `ConstValueNode`, and `AnyNode` over all 48 node classes.
  - `is_node` and the `ASTKindToNode` table.

Shared pieces are `wrappers.dfy` (`Option`, `Result`) and `text.dfy`. `text.dfy` holds ASCII `isdigit`/`lower`,
decimal digits and `join`.

## Model

| member | source | states |
|---|---|---|
| Text.ToLower | atgql/pyutils/suggestion_list.py:55 | `str.lower` keeps the length and lower-cases each ASCII letter, position by position |
| Text.DigitsRoundTrip | atgql/pyutils/print_path_array.py:6 | reading back the decimal digits of `n` gives `n` (how an `int` key is printed) |
| Text.JoinEmptySepAppend | atgql/pyutils/print_path_array.py:6 | `''.join` distributes over concatenation of the parts |
| Suggestions.StringToArray | atgql/pyutils/suggestion_list.py:118-119 | one code point per character, in order |
| Suggestions.StringToArrayInjective | atgql/pyutils/suggestion_list.py:118-119 | equal arrays come only from equal strings |
| Suggestions.DistZero | atgql/pyutils/suggestion_list.py:83-108 | a table entry is 0 only on the diagonal, for equal prefixes |
| Suggestions.DistZeroEqual | atgql/pyutils/suggestion_list.py:114 | a final distance of 0 means the two arrays are equal |
| Suggestions.DistEqualPrefix | atgql/pyutils/suggestion_list.py:83-108 | equal prefixes are at distance 0 |
| Suggestions.DistTransposition | atgql/pyutils/suggestion_list.py:100-103 | arrays that differ by one swap of two adjacent distinct elements are at distance 1 |
| Suggestions.CellStep | atgql/pyutils/suggestion_list.py:92-103 | each entry is the minimum of delete, insert, substitute and (when the letters cross) transpose |
| Suggestions.NextRowBound | atgql/pyutils/suggestion_list.py:110-112 | if every entry of a row is at least `m`, so is every entry of the next row |
| Suggestions.EarlyExitSound | atgql/pyutils/suggestion_list.py:110-112 | if a whole row exceeds the threshold, so does the final distance: the early exit rejects no option within the threshold |
| Suggestions.Ordered | atgql/pyutils/suggestion_list.py:77-80 | after the swap, the second array is the shorter one, and no longer than the input, so it fits a row |
| Suggestions.LoweredDistancePositive | atgql/pyutils/suggestion_list.py:71-74 | lower-cased strings that differ are at a positive distance |
| Suggestions.MeasureSpec | atgql/pyutils/suggestion_list.py:64-115 | 0 exactly when the option equals the input; 1 when they differ only in case; otherwise a distance at most the threshold, or `None` |
| Suggestions.TransposedDistance | atgql/pyutils/suggestion_list.py:100-103 | swapping two adjacent letters gives lower-cased arrays at distance 1 |
| Suggestions.TranspositionCostsOne | atgql/pyutils/suggestion_list.py:64-115 | an adjacent transposition of different letters measures exactly 1 |
| Suggestions.TranspositionExample | atgql/pyutils/suggestion_list.py:20 | 'agr' against 'arg' measures 1 at the input's threshold |
| Suggestions.LexicalDistance.constructor | atgql/pyutils/suggestion_list.py:53-62 | stores the input and its lower-cased code points; three zeroed rows of length `len(input)+1` |
| Suggestions.LexicalDistance.ComputeCell | atgql/pyutils/suggestion_list.py:92-103 | the cell computed from the up, left, diagonal and double-diagonal rows is the table entry |
| Suggestions.LexicalDistance.StoreCell | atgql/pyutils/suggestion_list.py:108 | the write changes one cell of the current row and leaves the other two rows intact |
| Suggestions.LexicalDistance.FillRow | atgql/pyutils/suggestion_list.py:86-108 | after the inner loop, the current row holds row `i` of the table, the other two rows are kept, and `smallest` is the row's minimum |
| Suggestions.LexicalDistance.MeasureTable | atgql/pyutils/suggestion_list.py:82-115 | the rolling-row computation with its early exit returns the distance exactly when it is within the threshold |
| Suggestions.LexicalDistance.Measure | atgql/pyutils/suggestion_list.py:64-115 | `measure` equals `MeasureSpec` |
| Suggestions.Comparer | atgql/pyutils/suggestion_list.py:26-28 | different distances order by distance; equal distances order by `natural_compare` |
| Suggestions.ComparerAntisymmetric | atgql/pyutils/suggestion_list.py:26-28 | `comparer(a, b) == -comparer(b, a)` for every pair, so a positive comparison is negative the other way round |
| Suggestions.InsertBy | atgql/pyutils/suggestion_list.py:30 | one insertion step of the sort adds exactly one element |
| Suggestions.InsertByOrdered | atgql/pyutils/suggestion_list.py:30 | inserting into an ordered list keeps adjacent pairs ordered |
| Suggestions.SortBy | atgql/pyutils/suggestion_list.py:30 | `sorted` returns a permutation whose adjacent pairs are in comparer order |
| Suggestions.DistinctPermutation | atgql/pyutils/suggestion_list.py:30 | a permutation of distinct keys is distinct |
| Suggestions.Candidates | atgql/pyutils/suggestion_list.py:26-27 | each key paired with its distance, in insertion order |
| Suggestions.RankedCandidates | atgql/pyutils/suggestion_list.py:26-30 | sorted candidates are exactly the keys, without repeats, by ascending distance, ties in natural order |
| Suggestions.RankedByDistance | atgql/pyutils/suggestion_list.py:26-30 | comparer order on adjacent pairs gives ascending distance over the whole list |
| Suggestions.Rank | atgql/pyutils/suggestion_list.py:26-30 | the ranked keys: the same set, no repeats, by ascending distance, ties broken by natural order |
| Suggestions.RankedOptions | atgql/pyutils/suggestion_list.py:17-30 | the ranking stated over `MeasureSpec` of each option |
| Suggestions.DistancesOfSpec | atgql/pyutils/suggestion_list.py:21-24 | the dictionary holds exactly the options whose measure is not `None`, each with its measure |
| Suggestions.OrderOfSpec | atgql/pyutils/suggestion_list.py:21-24 | the dictionary's key order lists each stored option once |
| Suggestions.CollectDistances | atgql/pyutils/suggestion_list.py:17-24 | the filling loop builds that dictionary and its insertion order |
| Suggestions.SuggestionList | atgql/pyutils/suggestion_list.py:11-30 | returns exactly the options within the threshold, each once, by ascending distance, ties in natural order (no options gives `[]`) |
| NaturalSort.DigitRunEnd | atgql/pyutils/natural_compare.py:19-20 | `takewhile(isdigit)` ends at the first non-digit; it advances by at least one on a digit |
| NaturalSort.NaturalCompare | atgql/pyutils/natural_compare.py:4-42 | the scanning loop equals the recursive `NaturalOrder` |
| NaturalSort.NaturalOrderReflexive | atgql/pyutils/natural_compare.py:14-42 | `natural_compare(s, s) == 0` |
| NaturalSort.NaturalOrderAntisymmetric | atgql/pyutils/natural_compare.py:14-42 | `natural_compare(a, b) == -natural_compare(b, a)` |
| NaturalSort.NaturalOrderShift | atgql/pyutils/natural_compare.py:14-42 | the scan from aligned positions ignores what lies before them |
| NaturalSort.CommonNonDigitHead | atgql/pyutils/natural_compare.py:33-40 | an equal non-digit head advances both indices by one and is skipped |
| NaturalSort.DifferentHeads | atgql/pyutils/natural_compare.py:33-37 | different heads, not both digits, compare by code point |
| NaturalSort.LeadingDigitRuns | atgql/pyutils/natural_compare.py:18-31 | leading maximal digit runs compare by numeric value; equal values continue after the runs |
| NaturalSort.DigitStrings | atgql/pyutils/natural_compare.py:18-42 | two digit strings compare by value, then by length |
| NaturalSort.PrefixComesFirst | atgql/pyutils/natural_compare.py:42 | when the scan finds no difference, the result is `len(a) - len(b)` |
| NaturalSort.Examples | atgql/pyutils/natural_compare.py:18-42 | '2' < '11', and '0' < '00' by the length tie-break |
| NaturalSort.TextExamples | atgql/pyutils/natural_compare.py:14-42 | '' < 'a' and 'a0a' < 'a9a' |
| BlockString.IsBlank | atgql/language/block_string.py:36-41 | the loop answers true exactly when every character is a space or a tab |
| BlockString.SplitLines | atgql/language/block_string.py:14 | the split gives at least one line and no line holds `\n` or `\r` |
| BlockString.NormalizeNewlines | atgql/language/block_string.py:14-33 | every `\r\n`, `\r` and `\n` becomes `\n` |
| BlockString.SplitLinesJoin | atgql/language/block_string.py:14-33 | splitting and joining with `\n` normalizes the line ends |
| BlockString.SplitJoinedLines | atgql/language/block_string.py:14-33 | splitting lines joined with `\n` gives the lines back |
| BlockString.CrLines | atgql/language/block_string.py:52-63 | the lines as the indentation scan sees them: only `\r` or `\r\n` ends one |
| BlockString.LeadingWhite | atgql/language/block_string.py:65-66 | the length of the leading run of spaces and tabs |
| BlockString.ScanLines | atgql/language/block_string.py:50-77 | the character scan equals a line-by-line scan |
| BlockString.GetBlockStringIndentation | atgql/language/block_string.py:44-79 | the scanning loop returns `BlockStringIndentation` |
| BlockString.IndentOfLinesIsMin | atgql/language/block_string.py:68-75 | the running minimum is the least indentation of the lines with content, or unchanged |
| BlockString.IndentationIsLeastIndent | atgql/language/block_string.py:44-79 | the result is the least indentation among lines after the first that have content, and 0 when there is none |
| BlockString.NoCrNoIndentation | atgql/language/block_string.py:52-75 | without `\r` (for example `\n`-only input) the indentation is 0 |
| BlockString.DropIndent | atgql/language/block_string.py:19-21 | the indent is cut from every line, the first included |
| BlockString.FirstNonBlank | atgql/language/block_string.py:24-26 | the first non-blank line; all before it are blank |
| BlockString.LastNonBlank | atgql/language/block_string.py:28-30 | the end after the last non-blank line; all after it are blank |
| BlockString.FirstNonBlankLine | atgql/language/block_string.py:24-26 | the loop finds `FirstNonBlank` |
| BlockString.LastNonBlankLine | atgql/language/block_string.py:28-30 | the loop finds `LastNonBlank` |
| BlockString.RemoveIndent | atgql/language/block_string.py:19-21 | the in-place loop over `lines` yields `DropIndent` |
| BlockString.DedentBlockStringValue | atgql/language/block_string.py:5-33 | the procedure returns `Dedent(rawString)` |
| BlockString.TrimmedRun | atgql/language/block_string.py:24-33 | the kept lines are one contiguous run of the lines, starting at the first non-blank one |
| BlockString.TrimmedDroppedLines | atgql/language/block_string.py:19-30 | each kept line is a raw line, in order from the first one not blank after dedenting, with the common indent cut off |
| BlockString.DedentLines | atgql/language/block_string.py:14-33 | splitting the value at its line ends gives back exactly the kept, dedented lines; the value is empty when every line is blank |
| BlockString.DedentHasNoCr | atgql/language/block_string.py:14-33 | the result holds no `\r` |
| BlockString.DedentHasNoBlankEnds | atgql/language/block_string.py:24-33 | a non-empty result neither starts nor ends with a blank line |
| BlockString.BlockBody | atgql/language/block_string.py:83-97 | the body before escaping: the value, with `\n` around it when printed on several lines, and only a trailing `\n` after a single line with leading space |
| BlockString.EscapeRoundTrip | atgql/language/block_string.py:99 | with every `"""` escaped as `\"""`, a lexer reads the body back up to the closing quotes |
| BlockString.BodyEnd | atgql/language/block_string.py:85-97 | the body never ends in `"` or `\` |
| BlockString.PrintBlockStringRoundTrip | atgql/language/block_string.py:82-99 | the printed string opens with `"""`, and reading it back yields exactly the body and nothing after the closing quotes |
| BlockString.PrintExample | atgql/language/block_string.py:99 | `a"""b` prints as `"""a\"""b"""` |
| DidYouMean.QuoteAll | atgql/pyutils/did_you_mean.py:27 | each suggestion in double quotes, in order |
| DidYouMean.DidYouMean | atgql/pyutils/did_you_mean.py:16-38 | the result is empty exactly when there are no suggestions |
| DidYouMean.NoSuggestions | atgql/pyutils/did_you_mean.py:29-30 | no suggestions yield '' |
| DidYouMean.SentenceShape | atgql/pyutils/did_you_mean.py:23-38 | a non-empty result starts with ' Did you mean ' and ends with '?' |
| DidYouMean.SubMessageInserted | atgql/pyutils/did_you_mean.py:19-25 | the sub-message goes after ' Did you mean ', followed by one space |
| DidYouMean.OnlyFirstFive | atgql/pyutils/did_you_mean.py:36-38 | suggestions after the fifth do not change the result |
| DidYouMean.ListedInOrder | atgql/pyutils/did_you_mean.py:36-38 | three or more: the first `n-1` quoted and comma-separated, then ', or ' and the last, with `n = min(len, 5)` |
| DidYouMean.Examples | atgql/pyutils/did_you_mean.py:24-34 | ' Did you mean "A"?', ' Did you mean "A" or "B"?' and ' Did you mean the letter "A"?' |
| DidYouMean.ThreeExample | atgql/pyutils/did_you_mean.py:36-38 | ' Did you mean "A", "B", or "C"?' |
| DidYouMean.LimitExample | atgql/pyutils/did_you_mean.py:36-38 | six suggestions list only A to E |
| Inspect.TruncStr | atgql/pyutils/inspect.py:117-124 | at most 240 characters: unchanged; longer: the first 118, '...', the last 119 |
| Inspect.TruncStrBound | atgql/pyutils/inspect.py:117-124 | the result is at most 240 characters long |
| Inspect.TruncStrIdempotent | atgql/pyutils/inspect.py:117-124 | truncating twice is truncating once |
| Inspect.TruncList | atgql/pyutils/inspect.py:127-134 | at most 10 items: unchanged; longer: the first 5, an Ellipsis marker, the last 4 |
| Inspect.TruncListBound | atgql/pyutils/inspect.py:127-134 | the result has at most 10 items |
| Inspect.TruncListIdempotent | atgql/pyutils/inspect.py:127-134 | truncating twice is truncating once |
| Paths.AddPath | atgql/pyutils/path.py:16-19 | the new link's prev, key and typename are exactly the arguments |
| Paths.Reversed | atgql/pyutils/path.py:30 | `list.reverse`: element `k` of the result is element `n-1-k` of the input |
| Paths.PathToArray | atgql/pyutils/path.py:22-31 | the collecting loop and the reversal yield `Keys(path)` |
| Paths.EmptyPath | atgql/pyutils/path.py:25-31 | `path_to_array(None) == []` |
| Paths.AddPathAppends | atgql/pyutils/path.py:16-31 | `path_to_array(add_path(p, k, t)) == path_to_array(p) + [k]` |
| Paths.KeysPerLink | atgql/pyutils/path.py:27-30 | one key per link, the root's key first and the last link's key last |
| Paths.TypenamesIgnored | atgql/pyutils/path.py:22-31 | typenames never affect the keys |
| PrintPath.KeyText | atgql/pyutils/print_path_array.py:6 | an `int` key prints as `[decimal]`, a `str` key as `.name`; never empty |
| PrintPath.PrintEmpty | atgql/pyutils/print_path_array.py:6 | an empty path prints as '' |
| PrintPath.PrintOneKey | atgql/pyutils/print_path_array.py:6 | one `int` key prints as `'[' + str(k) + ']'`, one `str` key as `'.' + s` |
| PrintPath.PrintAppend | atgql/pyutils/print_path_array.py:6 | printing `p + q` is printing `p`, then `q` |
| PrintPath.PrintLength | atgql/pyutils/print_path_array.py:6 | the output is at least as long as the path |
| PrintPath.PrintAddPath | atgql/pyutils/print_path_array.py:6 | extending a path by one key appends that key's text |
| KeyMaps.KeyMap | atgql/pyutils/key_map.py:11-20 | the insertion loop builds `KeyMapOf`, and the dictionary's key order `KeyOrder` |
| KeyMaps.KeyOrderMembers | atgql/pyutils/key_map.py:18-19 | the key order lists exactly the keys the dictionary holds |
| KeyMaps.KeyOrderNoRepeats | atgql/pyutils/key_map.py:18-19 | the key order lists each key once |
| KeyMaps.KeyOrderPrefix | atgql/pyutils/key_map.py:18-19 | keys come in first-insertion order: the order after the first `i` items is a prefix of the final order, and a repeated key does not move |
| KeyMaps.EmptyArray | atgql/pyutils/key_map.py:17-20 | an empty array gives an empty dict |
| KeyMaps.KeyMapKeys | atgql/pyutils/key_map.py:18-19 | the keys are exactly `{key_fn(x) for x in array}` |
| KeyMaps.LastItemWins | atgql/pyutils/key_map.py:18-19 | a key maps to the last item with that key |
| KeyMaps.KeyMapSize | atgql/pyutils/key_map.py:17-20 | at most one entry per item |
| KeyMaps.KeyMapSizeInjective | atgql/pyutils/key_map.py:17-20 | one entry per item exactly when `key_fn` is injective on the array |
| KeyValMaps.KeyValMap | atgql/pyutils/key_val_map.py:12-23 | the insertion loop builds `KeyValMapOf`, with the same key order `KeyOrder` as `key_map` |
| KeyValMaps.EmptyItems | atgql/pyutils/key_val_map.py:20-23 | an empty array gives an empty dict |
| KeyValMaps.KeyValMapKeys | atgql/pyutils/key_val_map.py:21-22 | the keys are exactly `{key_fn(x) for x in array}` |
| KeyValMaps.SameKeys | atgql/pyutils/key_val_map.py:21-22 | the same keys as `key_map` |
| KeyValMaps.LastValueWins | atgql/pyutils/key_val_map.py:21-22 | a key maps to `val_fn` of the last item with that key |
| KeyValMaps.IdentityIsKeyMap | atgql/pyutils/key_val_map.py:21-22 | with the identity as `val_fn`, it is `key_map` |
| Shims.SliceIndex | atgql/shims.py:190-192 | Python slice clamping: negatives count from the end, floored at 0; oversize bounds become the length |
| Shims.Splice | atgql/shims.py:185-193 | the length is clamped start + number of items + (len − clamped end); the prefix up to the clamped start is kept |
| Shims.SpliceInRange | atgql/shims.py:190-192 | for `0 <= start <= len` and `delete_count >= 0`: `s[:start] + items + s[min(start+delete_count, len):]` |
| Shims.SpliceStartOnly | atgql/shims.py:186-192 | with only a start (count 0, no items) the result equals the list |
| Shims.SpliceUndo | atgql/shims.py:190-192 | an in-range splice is undone by splicing the removed run back in |
| Shims.SpliceEndNotNormalized | atgql/shims.py:190-192 | see Findings: the tail slice `self[start + delete_count:]` is taken from the wrong place when `delete_count < 0` or `start < 0 <= start + delete_count`, so elements are duplicated (`[1,2,3,4], -1, 1` gives `[1,2,3,1,2,3,4]`) or lost (`[1,2,3], 0, -1` gives `[3]`) |
| Shims.Removed | atgql/shims.py:190-192 | the corrected number of removed elements: the count clamped to what follows the start |
| Shims.SpliceNormalized | atgql/shims.py:190-192 | the corrected splice: prefix up to the start, the items, then the rest after the removed run |
| Shims.SpliceNormalizedAgrees | atgql/shims.py:190-192 | the corrected splice agrees with the source whenever start and count are in range |
| Shims.SpliceNormalizedUndo | atgql/shims.py:190-192 | the corrected splice is always undone by splicing the removed run back |
| Shims.SpliceNormalizedExamples | atgql/shims.py:190-192 | the corrected results for the inputs of the Finding |
| Sources.OffsetError | atgql/language/source.py:44-51 | a line ≤ 0 gives the line message, checked first; else a column ≤ 0 gives the column message; else no error |
| Sources.Source.constructor | atgql/language/source.py:33-43 | stores body, name and location offset unchanged; defaults 'GraphQL request' and (1, 1) |
| Sources.NewSource | atgql/language/source.py:33-51 | fails with the `dev_assert` message exactly for an invalid offset; otherwise a fresh `Source` holding the arguments |
| Sources.OffsetExamples | atgql/language/source.py:44-51 | (0,1), (-1,1) and (0,0) give the line message; (1,0) and (1,-1) the column message; (1,1) is accepted |
| Ast.NewToken | atgql/language/ast.py:96-112 | a fresh token stores kind, start, end, line, column and value, and is unlinked |
| Ast.TokenToJson | atgql/language/ast.py:120-121 | the JSON view holds exactly kind, value, line and column |
| Ast.NewTokenJson | atgql/language/ast.py:120-121 | a token's JSON view does not depend on its offsets |
| Ast.NewLocation | atgql/language/ast.py:45-50 | `start == start_token.start`, `end == end_token.end`, and the tokens and source stored |
| Ast.LocationToJson | atgql/language/ast.py:56-57 | the JSON view holds exactly start and end |
| Ast.NewLocationJson | atgql/language/ast.py:45-57 | a new location's JSON is `{start: start_token.start, end: end_token.end}` |
| Ast.IsNodeIffMember | atgql/language/ast.py:127-128 | `is_node` holds exactly for values whose class has an `ASTKindToNode` member |
| Ast.ConstVariantsAreNotNodes | atgql/language/ast.py:743-787 | the five Const classes, and any non-node value, are not nodes |
| Ast.ConstVariantsShareKinds | atgql/language/ast.py:223-396 | the Const classes carry the tags 'Argument', 'ListValue', 'ObjectValue', 'ObjectField' and 'Directive', like their counterparts |
| Ast.MemberNameIsKind | atgql/language/ast.py:790-835 | each `ASTKindToNode` member name is its class's tag, except `BooleanValue`, whose class is tagged 'BoolValue' |
| Ast.KindIsClassTag | atgql/language/ast.py:139-144 | a node's tag is fixed by its class, whatever its fields: 'Name', 'BoolValue', 'Argument' |

## Left out

- `atgql/language/visitor.py` holds only typing protocols, with no traversal code, so nothing of it is modelled.
- `typeof`, `Array.is_array`, `Array.from_` and the rest of `atgql/shims.py` other than `splice` are not modelled: they rely on runtime type reflection.
- `inspect`/`format_value` are not modelled, because they are built on `repr` and runtime introspection.
- `memoize3`, the promise helpers, `obj_map`, `to_obj_map`, `maybe`, `identity_func` and the `is_*` predicates are not modelled, for the same reason.
- `invariant`, `dev_assert` and `assert_not_none` appear only as the error result of `NewSource`.
- `directive_location.py` is a constant enumeration; the token kind enumeration is not part of this model, so a token kind is its name.
- `str.lower` and `str.isdigit` are modelled over ASCII only; Unicode case mapping and Unicode digits are left out.
- The threshold `floor(len * 0.4) + 1` is computed exactly as `(2 * len) / 5 + 1`; the rounding of the float product `len * 0.4` is not modelled.
- The type check on `Source`'s body (atgql/language/source.py:39) is vacuous for a Dafny `string` and is left out.
- Sources.Source.constructor: it does not itself check the offset; the checks live in `NewSource`, which constructs only when they pass.
- BlockString.GetBlockStringIndentation: a `\r` as the value's last character is a precondition, because the source reads the next character unguarded and raises `IndexError`.
- BlockString.DedentBlockStringValue: carries the same precondition, because it calls the indentation scan on the raw string.
- The second `'\r'` test in the indentation scan (atgql/language/block_string.py:60-63) can never be reached and has no counterpart.
- BlockString.PrintBlockStringRoundTrip: an empty value is a precondition, because the source reads `value[0]` and raises `IndexError`.
- BlockString.PrintBlockStringRoundTrip: it is stated through `ReadBlockBody`, a reference reader written for this model; the GraphQL lexer is not part of this model.
- Suggestions.SortBy: Python's `sorted` is modelled as a stable insertion sort. Its contract is a permutation ordered on adjacent pairs, because `natural_compare` is not transitive ('0a', '00', '0b'), so no total order exists to state. Where ties are not transitive the model's order is one of the orders that contract allows, and is not claimed to be the order CPython's `sorted` returns: for `suggestion_list('0x', ['0b', '0!', '00', '0a'])`, where every option is at distance 1, the insertion sort gives `['0!', '0b', '00', '0a']`, while `sorted`'s run detection and binary insertion give `['0!', '0a', '0b', '00']`; both are permutations ordered on adjacent pairs.
- Suggestions.SuggestionList: the order is proved by distance over the whole list, and by natural order between neighbours of equal distance only. For the same reason as `SortBy`, the order among options of equal distance is not claimed to be the exact order the source returns when `natural_compare` is not transitive on them.
- Suggestions.LexicalDistance.Measure: the three row lists are the three rows of one `array2`.
- Ast.KindIsClassTag: states the fixed tag for three representative classes. `MemberNameIsKind` covers every class through the `ASTKindToNode` table.
- `Token.prev`/`Token.next` are modelled only as unlinked at creation; the lexer that links tokens is not part of this model.
- `__repr__` of `Token`, `Location` and `Source` are constant strings (`TokenRepr`, `LocationRepr`, `Source.Repr`); they are modelled without a lemma.
- `print_path_array` prints a Python `bool` key like an `int` key in the source; keys here are `str` or `int` only.
- `did_you_mean`'s two overloads are one function with an optional sub-message.
- The JavaScript-style expectations of the shim tests (mutating the list, returning the removed items, an infinite start) are not what `splice` does, so they are not modelled; see Findings.

## Findings

| source | as written | input that shows it | evidently intended | confidence | as-written member | corrected member |
|---|---|---|---|---|---|---|
| atgql/shims.py:190-192 | the kept tail starts at `self[start + delete_count:]`, which is clamped on its own instead of from the normalized start | `splice([1,2,3,4], -1, 1)` gives `[1,2,3,1,2,3,4]`; `splice([1,2,3], 0, -1)` gives `[3]` | JavaScript `splice`: remove `delete_count` elements (clamped to `[0, len - start]`) at the normalized start, giving `[1,2,3]` and `[1,2,3]` | not executed | Shims.SpliceEndNotNormalized | Shims.SpliceNormalized |
