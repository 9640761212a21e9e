/**
 * The location search tool `get_local_attractions`: geocode a place name,
 * ask the Overpass API for nearby nodes matching a category, and format the
 * first `limit` of them as a newline-joined report, or return one of its
 * fixed failure messages.
 *
 * The three external steps (the geocoder, the HTTP request, and decoding the
 * reply as JSON) are inputs: each is given as the outcome it produced,
 * including the case where it raised an exception.
 */
module Tools {
  import opened Wrappers
  import opened Text

  /** The tag map of one OpenStreetMap node. */
  type Tags = map<string, string>

  /** One node of the Overpass reply; `tags` is None when it has no "tags" key. */
  datatype Element = Element(tags: Option<Tags>)

  /** What the geocoder did with the place name. */
  datatype Geocoded =
    | GeocoderRaised(msg: string)    // geocode() raised; msg is str(e)
    | NoMatch                        // geocode() returned None
    | Located                        // a location was found (its coordinates only feed the query text)

  /** What `response.json()` did; `elements` is None when the key is absent or null. */
  datatype Decoded =
    | JsonRaised(msg: string)
    | Document(elements: Option<seq<Element>>)

  /** What the HTTP request to the Overpass interpreter did. */
  datatype Reply =
    | RequestRaised(msg: string)
    | Response(status: int, body: Decoded)

  const UnknownPlace := "Unknown Place"
  const NoAddress := "Address not available"

  // The fixed messages of the tool.

  function CouldNotFind(location: string): string {
    "Could not find location: '" + location + "'."
  }

  function NoResultsQuoted(query: string, location: string): string {
    "No results found for '" + query + "' near '" + location + "'."
  }

  function NoResultsUnquoted(query: string, location: string): string {
    "No results found for '" + query + "' near " + location + "."
  }

  function ErrorMessage(query: string, location: string, msg: string): string {
    "Error searching for '" + query + "' near '" + location + "': " + msg
  }

  function Header(query: string, location: string): string {
    "Top results for '" + query + "' near " + location + ":"
  }

  /**
   * The two "no results" messages differ only in the quotes around the
   * location: the bad-status one is the empty-result one for a quoted location.
   */
  lemma NoResultsAsymmetry(query: string, location: string)
    ensures NoResultsQuoted(query, location) == NoResultsUnquoted(query, "'" + location + "'")
    ensures NoResultsQuoted(query, location) != NoResultsUnquoted(query, location)
  {
  }

  // Per-element formatting.

  /** `el.get('tags', {})`: a node without tags reads as an empty tag map. */
  function TagsOf(el: Element): Tags {
    el.tags.GetOr(map[])
  }

  /** `tags.get(key, default)`. */
  function Get(tags: Tags, key: string, default: string): string {
    if key in tags then tags[key] else default
  }

  function Street(el: Element): string { Get(TagsOf(el), "addr:street", "") }

  function City(el: Element): string { Get(TagsOf(el), "addr:city", "") }

  /** The name shown for a node: `tags.get("name", "Unknown Place")`. */
  function Name(el: Element): string {
    Get(TagsOf(el), "name", UnknownPlace)
  }

  /**
   * The name is the "name" tag whenever the key is present, even with an
   * empty value; "Unknown Place" when the key or the whole tag map is missing.
   */
  lemma NameDefaults(el: Element)
    ensures el.tags.None? ==> Name(el) == UnknownPlace
    ensures el.tags.Some? && "name" in el.tags.value ==> Name(el) == el.tags.value["name"]
    ensures el.tags.Some? && "name" !in el.tags.value ==> Name(el) == UnknownPlace
  {
  }

  /**
   * The address shown for a node: `", ".join(filter(None, [street, city]))`,
   * or "Address not available" when that is empty.
   */
  function Address(el: Element): string {
    var full := Join(NonEmpty([Street(el), City(el)]), ", ");
    if full != "" then full else NoAddress
  }

  /**
   * The address cases: street and city joined by ", " when both are
   * non-empty, street first; the one non-empty part alone, with no stray
   * comma; "Address not available" when both are empty or absent.
   */
  lemma AddressCases(el: Element)
    ensures Street(el) != "" && City(el) != "" ==> Address(el) == Street(el) + ", " + City(el)
    ensures Street(el) != "" && City(el) == "" ==> Address(el) == Street(el)
    ensures Street(el) == "" && City(el) != "" ==> Address(el) == City(el)
    ensures Street(el) == "" && City(el) == "" ==> Address(el) == NoAddress
  {
    JoinNonEmptyPair(Street(el), City(el), ", ");
  }

  /** One report line: `<name>| <address>`. */
  function FormatLine(el: Element): string {
    Name(el) + "| " + Address(el)
  }

  /** A node without tags is shown exactly like one with an empty tag map. */
  lemma MissingTagsLine()
    ensures FormatLine(Element(None)) == FormatLine(Element(Some(map[])))
    ensures FormatLine(Element(None)) == UnknownPlace + "| " + NoAddress
  {
  }

  // Truncation and the report.

  /**
   * `elements[:limit]` with Python's slice rules: a non-negative limit keeps
   * the first `limit` elements (all of them when there are fewer), a negative
   * one drops the last `-limit` (leaving nothing when there are fewer).
   */
  function Take(elements: seq<Element>, limit: int): (shown: seq<Element>)
    ensures |shown| <= |elements| && shown == elements[..|shown|]
    ensures limit >= 0 && limit <= |elements| ==> |shown| == limit
    ensures limit > |elements| ==> shown == elements
    ensures limit < 0 && -limit <= |elements| ==> |shown| == |elements| + limit
    ensures limit < 0 && -limit > |elements| ==> shown == []
  {
    if limit >= 0 then
      (if limit <= |elements| then elements[..limit] else elements)
    else
      (if -limit <= |elements| then elements[..|elements| + limit] else [])
  }

  /**
   * The lines of a successful report: the header, then one line per shown
   * element, in the elements' order, line i + 1 formatted from element i alone.
   */
  function ReportLines(query: string, location: string, limit: int, elements: seq<Element>): (lines: seq<string>)
    ensures |lines| == 1 + |Take(elements, limit)|
    ensures lines[0] == Header(query, location)
    ensures forall i :: 0 <= i < |Take(elements, limit)| ==> lines[i + 1] == FormatLine(elements[i])
  {
    var shown := Take(elements, limit);
    var entries := seq(|shown|, i requires 0 <= i < |shown| => FormatLine(shown[i]));
    assert forall i :: 0 <= i < |shown| ==> entries[i] == FormatLine(elements[i]);
    [Header(query, location)] + entries
  }

  /** The successful report as one string: `"\n".join(output)`. */
  function Report(query: string, location: string, limit: int, elements: seq<Element>): string {
    Join(ReportLines(query, location, limit, elements), "\n")
  }

  /**
   * The report always opens with the header, and when any element is shown
   * the header is the whole first line.
   */
  lemma ReportStartsWithHeader(query: string, location: string, limit: int, elements: seq<Element>)
    ensures Header(query, location) <= Report(query, location, limit, elements)
    ensures |Take(elements, limit)| > 0 ==>
      Header(query, location) + "\n" <= Report(query, location, limit, elements)
  {
  }

  /** With `limit` 0 the report is the header alone. */
  lemma LimitZeroHeaderOnly(query: string, location: string, elements: seq<Element>)
    ensures Report(query, location, 0, elements) == Header(query, location)
  {
  }

  /**
   * No newline in the three tag values a line shows (its name, or the
   * default name, its street and its city); other tags never reach a line.
   */
  predicate PlainTags(el: Element) {
    '\n' !in Name(el) && '\n' !in Street(el) && '\n' !in City(el)
  }

  lemma PlainLine(el: Element)
    requires PlainTags(el)
    ensures '\n' !in FormatLine(el)
  {
    AddressCases(el);
  }

  lemma PlainHeader(query: string, location: string)
    requires '\n' !in query && '\n' !in location
    ensures '\n' !in Header(query, location)
  {
  }

  /** With a newline-free query, location and tags, every report line is newline-free. */
  lemma PlainLines(query: string, location: string, limit: int, elements: seq<Element>)
    requires '\n' !in query && '\n' !in location
    requires forall i :: 0 <= i < |Take(elements, limit)| ==> PlainTags(elements[i])
    ensures forall i :: 0 <= i < |ReportLines(query, location, limit, elements)| ==>
      '\n' !in ReportLines(query, location, limit, elements)[i]
  {
    var lines := ReportLines(query, location, limit, elements);
    forall i | 0 <= i < |lines|
      ensures '\n' !in lines[i]
    {
      if i == 0 {
        PlainHeader(query, location);
      } else {
        PlainLine(elements[i - 1]);
      }
    }
  }

  /**
   * What a reader of the report sees, line by line: when neither the query,
   * the location nor the name, street or city of a shown element holds a
   * newline, splitting the report at newlines gives back the header followed
   * by exactly one line per shown element, in order. So a non-negative limit
   * gives min(limit, |elements|) entity lines, never more than limit, while a
   * negative limit gives |elements| + limit lines (or none), which is more
   * than limit.
   */
  lemma ReportReadsBack(query: string, location: string, limit: int, elements: seq<Element>)
    requires '\n' !in query && '\n' !in location
    requires forall i :: 0 <= i < |Take(elements, limit)| ==> PlainTags(elements[i])
    ensures Split(Report(query, location, limit, elements)) == ReportLines(query, location, limit, elements)
    ensures |Split(Report(query, location, limit, elements))| - 1 ==
      (if limit < 0 then (if -limit <= |elements| then |elements| + limit else 0)
       else if limit <= |elements| then limit else |elements|)
    ensures Split(Report(query, location, limit, elements))[0] == Header(query, location)
  {
    PlainLines(query, location, limit, elements);
    SplitJoin(ReportLines(query, location, limit, elements));
  }

  /**
   * Step 3 of the tool: the header, then one line appended per element of
   * `elements[:limit]`, giving exactly the lines of the report.
   */
  method FormatResults(query: string, location: string, limit: int, elements: seq<Element>)
    returns (output: seq<string>)
    ensures output == ReportLines(query, location, limit, elements)
  {
    output := [Header(query, location)];
    var shown := Take(elements, limit);
    var i := 0;
    while i < |shown|
      invariant 0 <= i <= |shown|
      invariant |output| == i + 1 && output[0] == Header(query, location)
      invariant forall k :: 0 <= k < i ==> output[k + 1] == FormatLine(shown[k])
    {
      output := output + [FormatLine(shown[i])];
      i := i + 1;
    }
    var lines := ReportLines(query, location, limit, elements);
    forall k | 1 <= k < |output|
      ensures output[k] == lines[k]
    {
      assert shown[k - 1] == elements[k - 1];
    }
  }

  /**
   * `get_local_attractions`: exceptions raised by the geocoder, by the request
   * or by JSON decoding all become the error message; otherwise each early
   * return gives its fixed message, and a non-empty element list gives the
   * report. It always returns a string.
   */
  method GetLocalAttractions(query: string, location: string, limit: int := 5, geocoded: Geocoded, reply: Reply)
    returns (result: string)
    ensures geocoded.GeocoderRaised? ==> result == ErrorMessage(query, location, geocoded.msg)
    ensures geocoded.NoMatch? ==> result == CouldNotFind(location)
    ensures geocoded.Located? && reply.RequestRaised? ==> result == ErrorMessage(query, location, reply.msg)
    ensures geocoded.Located? && reply.Response? && reply.status != 200 ==>
      result == NoResultsQuoted(query, location)
    ensures geocoded.Located? && reply.Response? && reply.status == 200 && reply.body.JsonRaised? ==>
      result == ErrorMessage(query, location, reply.body.msg)
    ensures geocoded.Located? && reply.Response? && reply.status == 200 && reply.body.Document? ==>
      var elements := reply.body.elements.GetOr([]);
      result == if elements == [] then NoResultsUnquoted(query, location)
                else Report(query, location, limit, elements)
  {
    // Step 1: geocode the location.
    match geocoded
    case GeocoderRaised(msg) =>
      return ErrorMessage(query, location, msg);
    case NoMatch =>
      return CouldNotFind(location);
    case Located =>
    // Step 2: the Overpass request.
    match reply
    case RequestRaised(msg) =>
      return ErrorMessage(query, location, msg);
    case Response(status, body) =>
    if status != 200 {
      return NoResultsQuoted(query, location);
    }
    match body
    case JsonRaised(msg) =>
      return ErrorMessage(query, location, msg);
    case Document(found) =>
    var elements := found.GetOr([]);
    if elements == [] {
      return NoResultsUnquoted(query, location);
    }
    // Step 3: format the results.
    var output := FormatResults(query, location, limit, elements);
    return Join(output, "\n");
  }
}
