# Local attractions lookup — a Dafny model

The travel planner's only piece of original logic is the location search tool
`get_local_attractions` in `tools.py`. It geocodes a place name with Nominatim
and asks the Overpass API for nearby nodes whose `name`, `amenity` or `shop` tag
matches the query. It then formats the first `limit` nodes as a report: a
header line `Top results for '<query>' near <location>:` followed by one line
`<name>| <address>` per node, joined with newlines. It can also return one of
its fixed messages:

- `Could not find location: '<location>'.` when the geocoder finds nothing;
- `No results found for '<query>' near '<location>'.` when Overpass answers
  with a status other than 200;
- `No results found for '<query>' near <location>.` (location not quoted) when
  the reply holds no elements;
- `Error searching for '<query>' near '<location>': <message>` when anything
  raises.

Files:

- `wrappers.dfy`: module `Wrappers`, the `Option` type (a key that may be missing).
- `text.dfy`: module `Text`, which models Python's `sep.join`,
  `filter(None, …)` on strings, and `str.split("\n")`. `str.split("\n")` is
  how a reader of the report gets its lines back. The module proves that
  splitting undoes a newline join.
- `tools.py` becomes module `Tools`. The three external steps are inputs:
  - the geocoder: it raised, it returned nothing, or it returned a location;
  - the HTTP request: it raised, or it returned a status code and a body;
  - `response.json()`: it raised, or it gave a document whose `elements` key
    may be absent or null.

  Each exception sits at the step that raises it, so an early return before
  that step never reports it. The formatting loop is the method
  `FormatResults`. It builds the `output` list one line at a time and is
  proved equal to the specification function `ReportLines`. The top-level
  method `GetLocalAttractions` calls `FormatResults` and joins the lines.

Choices:

- `limit` follows Python's slice rules for `elements[:limit]` in full. A negative
  `limit` drops the last `-limit` elements. No precondition is put on `limit`,
  and it defaults to 5 as in the code.
- "The report never shows more than `limit` entries" holds only for a
  non-negative `limit`. The code does not check `limit`, so a negative one
  shows `|elements| + limit` entries (or none), which is always more than
  `limit`. `ReportReadsBack` states the exact count in both cases.
- The quoted/unquoted asymmetry between the two "no results" messages is kept
  as the code has it. `NoResultsAsymmetry` states exactly how the two differ.
- Line counts are stated on the report as a reader splits it at newlines. The
  query, the location and the name, street and city tags are free text and
  may hold newlines themselves, so `ReportReadsBack` requires that none of them
  does. Other tags never reach the report and are not constrained. Without
  that requirement a reader would see more lines than the report has entries.
- The tool is a function of its inputs, so identical inputs and identical
  external outcomes always give identical output.

## Model

| member | source | states |
|---|---|---|
| Tools.GetLocalAttractions | tools.py:35-96 | Exceptions from the geocoder, the request or JSON decoding give the error message with the exception text. A missing location gives the could-not-find message, and no later step matters. A non-200 status gives the quoted no-results message. Absent, null or empty elements give the unquoted one. Otherwise the result is the newline-joined report. The tool never raises: every exception from these steps becomes the error message. Whether it returns at all depends on the external calls finishing (see "## Left out"). |
| Tools.FormatResults | tools.py:82-90 | The list built from the header plus one appended line per element of `elements[:limit]` is exactly the report's lines. |
| Tools.ReportLines | tools.py:82-90 | The report has one header line plus one line per shown element. Line i+1 is formatted from element i alone, in the elements' order. |
| Tools.Take | tools.py:85 | `elements[:limit]` is a prefix of the elements. A limit in range keeps exactly `limit` elements, and a limit past the end keeps them all. A negative limit drops the last `-limit` elements, or all of them when there are fewer. |
| Tools.CouldNotFind | tools.py:54 | Defined as the message `Could not find location: '<location>'.` |
| Tools.NoResultsQuoted | tools.py:74 | Defined as the message `No results found for '<query>' near '<location>'.` |
| Tools.NoResultsUnquoted | tools.py:79 | Defined as the message `No results found for '<query>' near <location>.`, with the location not quoted. |
| Tools.ErrorMessage | tools.py:96 | Defined as the message `Error searching for '<query>' near '<location>': <msg>`. |
| Tools.Header | tools.py:82 | Defined as the header `Top results for '<query>' near <location>:`. |
| Tools.TagsOf | tools.py:86-88 | Defined as `el.get('tags', {})`: the node's tag map, or the empty map when it has none. |
| Tools.Get | tools.py:86-88 | Defined as Python's `dict.get(key, default)`: the value under the key, or the default when the key is absent. |
| Tools.Street | tools.py:87 | Defined as `tags.get("addr:street", "")`. |
| Tools.City | tools.py:88 | Defined as `tags.get("addr:city", "")`. |
| Tools.Name | tools.py:86 | Defined as `tags.get("name", "Unknown Place")`. Its cases are stated by `NameDefaults`. |
| Tools.Address | tools.py:89-90 | Defined as `", ".join(filter(None, [street, city]))`, or `Address not available` when that is empty. Its cases are stated by `AddressCases`. |
| Tools.FormatLine | tools.py:90 | Defined as the line `<name>| <address>`. |
| Tools.Report | tools.py:92 | Defined as the lines of `ReportLines` joined with newlines. |
| Text.Join | tools.py:89 | Defined as Python's `sep.join(parts)`, used for the address at tools.py:89 and for the report at tools.py:92. |
| Text.Split | tools.py:92 | Python's `str.split("\n")`, which the tool itself never calls: it is the reader's side of the join at this line. It always gives at least one piece, and no piece holds a newline. |
| Tools.NameDefaults | tools.py:86 | The name is the `name` tag whenever that key is present, even when its value is empty. It is `Unknown Place` when the key or the whole tag map is absent. |
| Tools.AddressCases | tools.py:87-90 | With street and city both non-empty, the address is street, `", "`, city. With one of them empty it is the other alone, with no comma. With both empty or absent it is `Address not available`. |
| Tools.MissingTagsLine | tools.py:86-90 | A node without a tags map is shown exactly like one with an empty map: `Unknown Place| Address not available`. |
| Tools.PlainTags | tools.py:86-90 | Defined as: the name (or its default), the street and the city of a node hold no newline. These are the only tags that reach a line. |
| Tools.PlainLine | tools.py:86-90 | A line whose name, street and city hold no newline holds no newline. |
| Tools.PlainHeader | tools.py:82 | With a newline-free query and location, the header holds no newline. |
| Tools.PlainLines | tools.py:82-90 | With a newline-free query and location, and newline-free name, street and city tags on the shown elements, no report line holds a newline. |
| Tools.ReportStartsWithHeader | tools.py:82-92 | The joined report starts with the header. When any element is shown, the header is followed by a newline. |
| Tools.LimitZeroHeaderOnly | tools.py:82-92 | With `limit` 0 the report is the header alone. |
| Tools.ReportReadsBack | tools.py:82-92 | When the query, the location and the name, street and city of each shown element hold no newline, splitting the report at newlines gives back the header followed by one line per shown element. For a non-negative `limit` the number of entity lines is the smaller of `limit` and the number of elements, so never more than `limit`. For a negative `limit` it is the number of elements plus `limit`, or 0 when that is negative. |
| Tools.NoResultsAsymmetry | tools.py:73-79 | The bad-status message is the empty-result message with the location wrapped in quotes, so the two always differ. |
| Text.NonEmpty | tools.py:89 | `filter(None, parts)` keeps exactly the non-empty parts, no more of them than there were. |
| Text.NonEmptyCounts | tools.py:89 | Each non-empty part is kept as often as it occurs, and every empty part is dropped. |
| Text.NonEmptyAppend | tools.py:89 | Filtering keeps order: filtering a concatenation gives the two filtered halves, concatenated. |
| Text.NonEmptySingle | tools.py:89 | A single part is kept exactly when it is non-empty. |
| Text.JoinNonEmptyPair | tools.py:89 | Joining the non-empty parts of `[a, b]` gives `a sep b`, the one non-empty part alone, or the empty string. |
| Text.JoinSplit | tools.py:92 | The converse round trip: joining the pieces of any text with newlines gives the text back. |
| Text.SplitJoin | tools.py:92 | When no line holds a newline, splitting the newline-joined lines gives back exactly those lines. |
| Text.JoinStartsWithFirst | tools.py:92 | The joined text starts with the first part. When more parts follow, the separator comes right after it. |

## Left out

- The Nominatim geocoder call and the `requests.get` call to the Overpass interpreter are network I/O. Their outcomes are inputs: either an exception text or a result.
- The model assumes every external call finishes. The `requests.get` call passes no client `timeout`, so the code can block there forever and never return. The `[timeout:25]` in the query only limits the server. The geocoder call may also block, with its library's default timeout. The model gives a result for every combination of call outcomes, and says nothing about calls that never finish.
- The text of the Overpass query is left out, together with the `radius` parameter and the coordinates it embeds. They only reach the remote server, whose reply is an input.
- The server-side `out body {limit}` cap is left out. The model takes whatever elements the reply holds and truncates them itself, as the code does.
- JSON decoding is a library call. Its outcome is an input: either an exception text or the already-parsed element list.
- Exceptions raised inside the formatting loop are not modelled. They would come from an element or tag map that is not a JSON object, or from a street or city value that is truthy but not a string, which makes the `join` raise. Non-string values that raise nothing are not modelled either: a null or numeric name is printed as `None` or as the number, and a null street or city is dropped by the filter. Elements are modelled as optional string-to-string tag maps, which is what OpenStreetMap nodes carry.
- Exception texts (`str(e)`) are opaque strings supplied by the caller.
- The agent declarations in `agent.py` and `tools.py:15-32`, and the tool registration at `tools.py:99`, are framework configuration with no control flow.
