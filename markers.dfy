/** The timeline markers of resources/lib/playback/markers.py: offsets
    and skippable sections read from a video's metadata. */
module Markers {
  import opened Wrappers
  import opened Json

  const Credit: string := "credit"
  const Recap: string := "recap"
  /** `SKIPPABLE_SECTIONS`: each section with its localized label id */
  const SkippableSections: map<string, int> := map[Credit := 30076, Recap := 30077]
  const OffsetWatchedToEnd: string := "watchedToEndOffset"
  const OffsetCredits: string := "creditsOffset"

  /** `get_offset_markers(metadata)`: the two offsets that are set */
  function OffsetMarkers(metadata: Json): (r: Result<map<string, Json>>)
    ensures r.Ok? <==> metadata.JObj?
    ensures r.Err? ==> r.exc == AttributeError
    ensures r.Ok? ==> r.value.Keys <= {OffsetCredits, OffsetWatchedToEnd}
    ensures r.Ok? ==> forall k :: k in {OffsetCredits, OffsetWatchedToEnd} ==>
      (k in r.value <==> k in metadata.fields && metadata.fields[k] != JNull)
    ensures r.Ok? ==> forall k :: k in r.value ==> k in metadata.fields && r.value[k] == metadata.fields[k]
  {
    if !metadata.JObj? then Err(AttributeError)
    else
      var m := metadata.fields;
      Ok(map k | k in {OffsetCredits, OffsetWatchedToEnd} && k in m && m[k] != JNull :: m[k])
  }

  /** `i > 0` in Python 2, where None is below every number and strings,
      lists and dicts are above them */
  predicate Positive(j: Json) {
    match j
    case JNull => false
    case JBool(b) => b
    case JInt(n) => n > 0
    case _ => true
  }

  /** Whether a section's markers are kept: no value is None and one is
      positive */
  predicate Keep(markers: map<string, Json>) {
    (forall k :: k in markers ==> markers[k] != JNull) && exists k :: k in markers && Positive(markers[k])
  }

  /** `int(ms / 1000)`: Python 2 floor division on integers (a boolean
      counts as 0 or 1) */
  function Seconds(ms: Json): (r: Result<int>)
    ensures ms.JInt? ==> r == Ok(ms.i / 1000) && r.value * 1000 <= ms.i < r.value * 1000 + 1000
    ensures ms.JBool? ==> r == Ok(0)
    ensures !ms.JInt? && !ms.JBool? ==> r == Err(TypeError)
  {
    match ms
    case JInt(n) => Ok(n / 1000)
    case JBool(_) => Ok(0)
    case _ => Err(TypeError)
  }

  /** The markers of one section, or None when it is not kept */
  function Section(creditMarkers: Json, section: string): (r: Result<Option<Json>>)
    ensures r.Ok? ==> creditMarkers.JObj? && section in creditMarkers.fields && creditMarkers.fields[section].JObj?
    ensures r.Ok? ==> (r.value.Some? <==> Keep(creditMarkers.fields[section].fields))
    ensures r.Ok? && r.value.Some? ==>
      var markers := creditMarkers.fields[section].fields;
      && "start" in markers && "end" in markers
      && Seconds(markers["start"]).Ok? && Seconds(markers["end"]).Ok?
      && r.value.value == JObj(map["start" := JInt(Seconds(markers["start"]).value),
                                   "end" := JInt(Seconds(markers["end"]).value)])
  {
    var markers :- Index(creditMarkers, section);
    if !markers.JObj? then Err(AttributeError)
    else if !Keep(markers.fields) then Ok(None)
    else
      var start :- Index(markers, "start");
      var start :- Seconds(start);
      var end :- Index(markers, "end");
      var end :- Seconds(end);
      Ok(Some(JObj(map["start" := JInt(start), "end" := JInt(end)])))
  }

  /** `get_section_markers(metadata)`. The sections are visited credit
      first; with both failing, the model reports the credit section's
      exception. */
  function SectionMarkers(metadata: Json): (r: Result<map<string, Json>>)
    ensures r.Ok? ==> r.value.Keys <= SkippableSections.Keys
    ensures r.Ok? ==> metadata.JObj? && "creditMarkers" in metadata.fields && metadata.fields["creditMarkers"].JObj?
    ensures r.Ok? ==> forall k :: k in SkippableSections ==>
      Section(metadata.fields["creditMarkers"], k).Ok? &&
      k in metadata.fields["creditMarkers"].fields && metadata.fields["creditMarkers"].fields[k].JObj? &&
      (k in r.value <==> Keep(metadata.fields["creditMarkers"].fields[k].fields))
    ensures r.Ok? ==> forall k :: k in r.value ==> Section(metadata.fields["creditMarkers"], k) == Ok(Some(r.value[k]))
  {
    var creditMarkers :- Index(metadata, "creditMarkers");
    var credit :- Section(creditMarkers, Credit);
    var recap :- Section(creditMarkers, Recap);
    var m := if credit.Some? then map[Credit := credit.value] else map[];
    Ok(if recap.Some? then m[Recap := recap.value] else m)
  }

  /** A section whose markers are all zero is skipped, and a positive start
      in milliseconds becomes whole seconds. */
  lemma SectionExamples()
    ensures SectionMarkers(JObj(map["creditMarkers" := JObj(map[
      Credit := JObj(map["start" := JInt(0), "end" := JInt(0)]),
      Recap := JObj(map["start" := JInt(1500), "end" := JInt(61999)])])])) ==
      Ok(map[Recap := JObj(map["start" := JInt(1), "end" := JInt(61)])])
  {
    var creditMarkers := JObj(map[
      Credit := JObj(map["start" := JInt(0), "end" := JInt(0)]),
      Recap := JObj(map["start" := JInt(1500), "end" := JInt(61999)])]);
    ZeroSectionIsSkipped(creditMarkers);
    RecapInSeconds(creditMarkers);
  }

  lemma ZeroSectionIsSkipped(creditMarkers: Json)
    requires creditMarkers.JObj? && Credit in creditMarkers.fields
    requires creditMarkers.fields[Credit] == JObj(map["start" := JInt(0), "end" := JInt(0)])
    ensures Section(creditMarkers, Credit) == Ok(None)
  {
    var zero := map["start" := JInt(0), "end" := JInt(0)];
    assert !Keep(zero) by {
      forall k | k in zero ensures !Positive(zero[k]) { }
    }
  }

  lemma RecapInSeconds(creditMarkers: Json)
    requires creditMarkers.JObj? && Recap in creditMarkers.fields
    requires creditMarkers.fields[Recap] == JObj(map["start" := JInt(1500), "end" := JInt(61999)])
    ensures Section(creditMarkers, Recap) == Ok(Some(JObj(map["start" := JInt(1), "end" := JInt(61)])))
  {
    var recap := map["start" := JInt(1500), "end" := JInt(61999)];
    assert Keep(recap) by { assert "start" in recap && Positive(recap["start"]); }
  }
}
