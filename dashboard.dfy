/** What the viewer derives from the two fetched payloads: the merged record
    with the track's image and fun facts, the chart of the selected graph
    type, the sector-time table and the graph carousel. */
module Dashboard {
  import opened Optional
  import opened Telemetry

  /** The circuit image of every track the viewer offers. */
  const TrackImages: map<string, string> := map[
    "Bahrain" := "/Bahrain_Circuit.avif",
    "Monaco" := "/Monaco_Circuit.avif",
    "Silverstone" := "/Silverstone_Circuit.avif",
    "Singapore" := "/Singapore_Circuit.avif",
    "Qatar" := "/Qatar_Circuit.avif",
    "Canada" := "/Canada_Circuit.avif",
    "Abu_Dhabi" := "/Abu_Dhabi_Circuit.avif"
  ]

  /** The tracks of the selector, in the key order of `TrackImages`. */
  const AvailableTracks: seq<string> :=
    ["Bahrain", "Monaco", "Silverstone", "Singapore", "Qatar", "Canada", "Abu_Dhabi"]

  const DefaultCircuitImage := "/default_circuit.png"

  /** Three fun facts per known track. */
  const FunFacts: map<string, seq<string>> := map[
    "Bahrain" := [
      "Bahrain hosted the first F1 race in the Middle East in 2004.",
      "It is known for its desert backdrop and night races.",
      "The track features a 1 km straight, ideal for overtaking."],
    "Monaco" := [
      "The Monaco Grand Prix is one of the most prestigious races in F1.",
      "It is known for its narrow streets and sharp corners.",
      "Qualifying is crucial due to limited overtaking opportunities."],
    "Silverstone" := [
      "Silverstone hosted the first F1 World Championship race in 1950.",
      "The circuit is one of the fastest tracks on the calendar.",
      "Famous corners include Maggotts, Becketts, and Chapel."],
    "Singapore" := [
      "The Singapore Grand Prix was the first night race in F1 history.",
      "The Marina Bay Street Circuit is known for its cityscape views.",
      "It has 23 corners, making it one of the most technical tracks."],
    "Qatar" := [
      "The Qatar Grand Prix debuted in 2021 at the Losail International Circuit.",
      "It is known for its flowing layout and floodlit races.",
      "The circuit features long straights and high-speed corners."],
    "Canada" := [
      "The Circuit Gilles Villeneuve is named after the legendary driver Gilles Villeneuve.",
      "The track is famous for the 'Wall of Champions.'",
      "It is known for its high-speed straights and tight corners."],
    "Abu_Dhabi" := [
      "The Yas Marina Circuit hosts the final race of the F1 season.",
      "The track features a unique pit exit that passes under the circuit.",
      "It offers stunning sunset views during the race."]
  ]

  /** `trackImages[track] || "/default_circuit.png"`. */
  function CircuitImage(track: string): (image: string)
    ensures track in TrackImages ==> image == TrackImages[track]
    ensures track !in TrackImages ==> image == DefaultCircuitImage
    ensures image != ""
  {
    if track in TrackImages && TrackImages[track] != "" then TrackImages[track]
    else DefaultCircuitImage
  }

  /** `funFacts[track]`, which has no default. */
  function TrackFunFacts(track: string): (facts: Option<seq<string>>)
    ensures facts.Some? <==> track in FunFacts
    ensures facts.Some? ==> facts.value == FunFacts[track]
  {
    if track in FunFacts then Some(FunFacts[track]) else None
  }

  /** The record the viewer stores after both fetches succeed. */
  function Merge(response1: Payload, response2: Payload, track: string): (m: Merged)
    ensures m.driver1 == response1 && m.driver2 == response2
    ensures m.circuitImage == CircuitImage(track) && m.funFacts == TrackFunFacts(track)
  {
    Merged(response1, response2, CircuitImage(track), TrackFunFacts(track))
  }

  /** The selector offers exactly the tracks that have an image, and those
      are exactly the tracks that have fun facts. */
  lemma TrackTablesAgree()
    ensures forall t :: t in AvailableTracks <==> t in TrackImages
    ensures TrackImages.Keys == FunFacts.Keys
  {
    assert TrackImages.Keys == set t | t in AvailableTracks;
    assert FunFacts.Keys == set t | t in AvailableTracks;
  }

  /** Every track of the selector has its own image and three fun facts, so a
      track chosen in the viewer never falls back to the default image and
      always has a fun-fact list to show. */
  lemma KnownTracks(track: string)
    requires track in AvailableTracks
    ensures CircuitImage(track) != DefaultCircuitImage
    ensures TrackFunFacts(track).Some? && |TrackFunFacts(track).value| == 3
  {
    TrackTablesAgree();
  }

  /** An unknown track still merges: default image, no fun facts. */
  lemma UnknownTrack(response1: Payload, response2: Payload, track: string)
    requires track !in AvailableTracks
    ensures Merge(response1, response2, track).circuitImage == DefaultCircuitImage
    ensures Merge(response1, response2, track).funFacts.None?
  {
    TrackTablesAgree();
  }

  // ---------------------------------------------------------------- graphs

  /** One entry of `graphTypes`; the brake graph has no second colour. */
  datatype GraphType = GraphType(
    title: string, dataKey: SeriesKey, labelY: string, stroke1: string, stroke2: Option<string>)

  const GraphTypes: seq<GraphType> := [
    GraphType("Speed vs. Distance", Speed, "Speed (km/h)", "#007bff", Some("#ff4500")),
    GraphType("Throttle vs. Distance", Throttle, "Throttle (%)", "#28a745", Some("#dc3545")),
    GraphType("Brake Usage vs. Distance", Brake, "Brake Usage (True/False)", "#17a2b8", None)
  ]

  /** One line of a chart: a driver's label, that driver's series unchanged,
      and its colour (absent for the brake graph's second line). */
  datatype Dataset = Dataset(name: string, data: seq<Sample>, borderColor: Option<string>)

  /** What `renderGraph` renders: a "no data" note or a line chart. */
  datatype Chart = NoData(title: string) | Line(labels: seq<nat>, datasets: seq<Dataset>)

  /** `renderGraph(graphType)`; `label1`/`label2` are the driver names the
      form last submitted. */
  function RenderGraph(telemetry: Option<Merged>, label1: string, label2: string, g: GraphType): (c: Chart)
    ensures c.NoData? <==> telemetry.None? || Series(telemetry.value.driver1, g.dataKey).None?
    ensures c.NoData? ==> c.title == g.title
    ensures c.Line? ==>
      var s1 := Series(telemetry.value.driver1, g.dataKey).value;
      var s2 := Series(telemetry.value.driver2, g.dataKey);
      && |c.labels| == |s1| && (forall i :: 0 <= i < |s1| ==> c.labels[i] == i)
      && |c.datasets| == (if s2.Some? then 2 else 1)
      && c.datasets[0] == Dataset(label1, s1, Some(g.stroke1))
      && (s2.Some? ==> c.datasets[1] == Dataset(label2, s2.value, g.stroke2))
  {
    if telemetry.None? || Series(telemetry.value.driver1, g.dataKey).None? then NoData(g.title)
    else
      var s1 := Series(telemetry.value.driver1, g.dataKey).value;
      var first := Dataset(label1, s1, Some(g.stroke1));
      var second := Series(telemetry.value.driver2, g.dataKey);
      Line(seq(|s1|, i requires 0 <= i < |s1| => i),
           [first] + (if second.Some? then [Dataset(label2, second.value, g.stroke2)] else []))
  }

  /** The chart ignores driver 2's series length: driver 2 may have more or
      fewer samples than driver 1 without changing the labels or driver 1's line. */
  lemma ChartLabelsFollowDriver1(m: Merged, m': Merged, label1: string, label2: string, g: GraphType)
    requires m.driver1 == m'.driver1
    requires Series(m.driver1, g.dataKey).Some?
    ensures RenderGraph(Some(m), label1, label2, g).labels == RenderGraph(Some(m'), label1, label2, g).labels
    ensures RenderGraph(Some(m), label1, label2, g).datasets[0] == RenderGraph(Some(m'), label1, label2, g).datasets[0]
  {
  }

  // ---------------------------------------------------------- sector table

  /** One row of the comparison table: the one-based sector number, driver
      1's time and driver 2's time at the same position (absent when driver
      2 has fewer sectors: `undefined`, rendered as an empty cell). */
  datatype SectorRow = SectorRow(sector: nat, time1: Sample, time2: Option<Sample>)

  /** The sector table, shown only when both payloads have `sector_times`. */
  function SectorTable(m: Merged): (rows: Option<seq<SectorRow>>)
    ensures rows.Some? <==> m.driver1.sectorTimes.Some? && m.driver2.sectorTimes.Some?
    ensures rows.Some? ==>
      var d1 := m.driver1.sectorTimes.value;
      var d2 := m.driver2.sectorTimes.value;
      && |rows.value| == |d1|
      && forall k :: 0 <= k < |d1| ==>
           rows.value[k] == SectorRow(k + 1, d1[k], if k < |d2| then Some(d2[k]) else None)
  {
    if m.driver1.sectorTimes.None? || m.driver2.sectorTimes.None? then None
    else
      var d1 := m.driver1.sectorTimes.value;
      var d2 := m.driver2.sectorTimes.value;
      Some(seq(|d1|, k requires 0 <= k < |d1| =>
        SectorRow(k + 1, d1[k], if k < |d2| then Some(d2[k]) else None)))
  }

  // -------------------------------------------------------------- carousel

  /** The "Next" button: one graph on, wrapping after the last. */
  function NextGraph(i: nat): (next: nat)
    ensures next < |GraphTypes|
  {
    (i + 1) % |GraphTypes|
  }

  /** The "Previous" button: one graph back, wrapping before the first.
      The dividend `i - 1 + 3` is never negative, so JavaScript's `%` and
      Dafny's agree here. */
  function PreviousGraph(i: nat): (previous: nat)
    ensures previous < |GraphTypes|
  {
    (i - 1 + |GraphTypes|) % |GraphTypes|
  }

  /** Both buttons keep the index inside `graphTypes`, undo each other, and
      three presses of "Next" come back to the start. */
  lemma CarouselCycles(i: nat)
    requires i < |GraphTypes|
    ensures NextGraph(i) < |GraphTypes| && PreviousGraph(i) < |GraphTypes|
    ensures PreviousGraph(NextGraph(i)) == i && NextGraph(PreviousGraph(i)) == i
    ensures NextGraph(NextGraph(NextGraph(i))) == i
  {
  }

}
