/** One culvert crossing (Hy8RunnerCulvertCrossing, hy8runner/hy8_runner_crossing.py):
    its fields and defaults, and the line-oriented record it writes for the
    HY-8 analysis program.

    `CrossingLines` is the specification of the record: the exact lines, in
    order, for a crossing whose flow list has already been recomputed. The
    method `Crossing.WriteCrossingToFile` writes the record line by line and is
    proved to produce exactly `CrossingLines`. */
module CrossingModel {
  import opened Numerals
  import opened FlowModel
  import opened CulvertModel
  import opened Sink
  import opened RecordText

  datatype Option<T> = None | Some(value: T)

  /** One entry of `tw_rating_curve`: the triple (flow, elevation, velocity). */
  datatype RatingPoint = RatingPoint(flow: real, elevation: real, velocity: real)

  /** The fields of one crossing, as a value. */
  datatype CrossingRecord = CrossingRecord(
    name: string,
    notes: string,
    flow: FlowRecord,
    twType: int,
    twBottomWidth: real,
    twSideslope: real,
    twChannelSlope: real,
    twManningN: real,
    twConstantElevation: real,
    twInvertElevation: real,
    twRatingCurve: seq<RatingPoint>,
    roadwayShape: int,
    roadwayWidth: real,
    roadwayStations: seq<real>,
    roadwayElevations: seq<real>,
    roadwaySurface: string,
    culverts: seq<Culvert>,
    uuid: Option<string>)

  /** What the serializer borrows from elsewhere: `number` renders a number as
      Python's `str` does, `culvert` is the block a barrel writes for itself. */
  datatype Render = Render(number: real -> string, culvert: Culvert -> seq<string>)

  // ---------------------------------------------------------------------
  // The record, block by block

  /** The header: the name line and then the notes line. */
  function HeaderLines(name: string, notes: string): (r: seq<string>)
    ensures |r| == 2
  {
    ["STARTCROSSING   " + Quoted(name), "STARTCROSSNOTES    " + Quoted(notes)]
  }

  /** The DISCHARGEMETHOD code: 0 for min-design-max, 1 for every other method. */
  function DischargeMethodCode(flowMethod: string): (code: int)
    ensures code == 0 || code == 1
    ensures code == 0 <==> flowMethod == MinDesignMax
  {
    if flowMethod != MinDesignMax then 1 else 0
  }

  function FlowRow(flow: real, num: real -> string): string
  {
    "DISCHARGEXYUSER_Y " + num(flow)
  }

  /** One DISCHARGEXYUSER_Y line per flow, in list order. */
  function FlowRows(flows: seq<real>, num: real -> string): (r: seq<string>)
    ensures |r| == |flows|
    ensures forall i :: 0 <= i < |flows| ==> r[i] == FlowRow(flows[i], num)
  {
    if flows == [] then []
    else FlowRows(flows[..|flows| - 1], num) + [FlowRow(flows[|flows| - 1], num)]
  }

  /** The discharge block: three header lines, then one row per flow. */
  function DischargeLines(f: FlowRecord, num: real -> string): (r: seq<string>)
    ensures |r| == 3 + |f.flowList|
  {
    ["DISCHARGERANGE " + num(f.flowMin) + " " + num(f.flowDesign) + " " + num(f.flowMax),
     "DISCHARGEMETHOD " + IntToString(DischargeMethodCode(f.flowMethod)),
     "DISCHARGEXYUSER " + IntToString(|f.flowList|)]
    + FlowRows(f.flowList, num)
  }

  /** The legacy rating table always has six rows, all at the constant elevation. */
  function TwList(constantElevation: real): (tw: seq<real>)
    ensures |tw| == 6
    ensures forall i :: 0 <= i < 6 ==> tw[i] == constantElevation
  {
    seq(6, _ => constantElevation)
  }

  /** Elevation, then the velocity, shear and Froude placeholders (all 0.0). */
  function TwValues(tw: real, num: real -> string): string
  {
    num(tw) + " " + num(0.0) + " " + num(0.0) + " " + num(0.0)
  }

  function TwRow(tw: real, num: real -> string): string
  {
    "              " + TwValues(tw, num)
  }

  function TwRows(tws: seq<real>, num: real -> string): (r: seq<string>)
    ensures |r| == |tws|
    ensures forall i :: 0 <= i < |tws| ==> r[i] == TwRow(tws[i], num)
  {
    if tws == [] then []
    else TwRows(tws[..|tws| - 1], num) + [TwRow(tws[|tws| - 1], num)]
  }

  /** The tailwater block always has 10 lines, whatever the rating curve holds. */
  function TailwaterLines(c: CrossingRecord, num: real -> string): (r: seq<string>)
    ensures |r| == 10
  {
    var tw := TwList(c.twConstantElevation);
    ["TAILWATERTYPE " + IntToString(c.twType),
     "CHANNELGEOMETRY " + num(c.twBottomWidth) + " " + num(c.twSideslope) + " "
       + num(c.twChannelSlope) + " " + num(c.twManningN) + " " + num(c.twInvertElevation),
     "NUMRATINGCURVE " + IntToString(|tw|),
     "TWRATINGCURVE " + TwValues(tw[0], num)]
    + TwRows(tw, num)
  }

  function PointLines(p: RatingPoint, num: real -> string): seq<string>
  {
    ["\tFLOW " + num(p.flow), "\tELEVATION " + num(p.elevation), "\tVELOCITY " + num(p.velocity)]
  }

  /** Three lines per rating-curve point, in list order. */
  function PointRows(points: seq<RatingPoint>, num: real -> string): (r: seq<string>)
    ensures |r| == 3 * |points|
    ensures forall i :: 0 <= i < |points| ==>
      r[3 * i] == "\tFLOW " + num(points[i].flow) &&
      r[3 * i + 1] == "\tELEVATION " + num(points[i].elevation) &&
      r[3 * i + 2] == "\tVELOCITY " + num(points[i].velocity)
  {
    if points == [] then []
    else PointRows(points[..|points| - 1], num) + PointLines(points[|points| - 1], num)
  }

  /** The user rating curve, written only when it has points. */
  function RatingCurveLines(points: seq<RatingPoint>, num: real -> string): (r: seq<string>)
    ensures r == [] <==> points == []
    ensures |r| == if points == [] then 0 else 3 * |points| + 3
  {
    if |points| > 0 then
      ["RATINGCURVE", "NUMPOINTS " + IntToString(|points|)] + PointRows(points, num) + ["END RATINGCURVE"]
    else []
  }

  /** The SURFACE code of a roadway surface name. */
  function SurfaceCode(surface: string): (code: int)
    ensures 1 <= code <= 3
    ensures code == 2 <==> surface == "gravel"
    ensures code == 3 <==> surface == "user-defined"
  {
    if surface == "gravel" then 2
    else if surface == "user-defined" then 3
    else 1
  }

  const FirstCard := "ROADWAYSECDATA"
  const LaterCard := "ROADWAYPOINT"

  function Min(a: nat, b: nat): nat { if a <= b then a else b }

  /** Python's `zip`: pairs up the two lists as far as the shorter one goes. */
  function Zip(a: seq<real>, b: seq<real>): (pairs: seq<(real, real)>)
    ensures |pairs| == Min(|a|, |b|)
    ensures forall i :: 0 <= i < |pairs| ==> pairs[i] == (a[i], b[i])
  {
    seq(Min(|a|, |b|), i requires 0 <= i < Min(|a|, |b|) => (a[i], b[i]))
  }

  /** The card name of the i-th station row. */
  function Card(i: nat): string
  {
    if i == 0 then FirstCard else LaterCard
  }

  function StationRow(card: string, pair: (real, real), num: real -> string): string
  {
    card + " " + num(pair.0) + " " + num(pair.1)
  }

  /** One row per (station, elevation) pair: ROADWAYSECDATA for the first,
      ROADWAYPOINT for every later one. */
  function StationRows(pairs: seq<(real, real)>, num: real -> string): (r: seq<string>)
    ensures |r| == |pairs|
    ensures forall i :: 0 <= i < |pairs| ==> r[i] == StationRow(Card(i), pairs[i], num)
  {
    if pairs == [] then []
    else StationRows(pairs[..|pairs| - 1], num) + [StationRow(Card(|pairs| - 1), pairs[|pairs| - 1], num)]
  }

  /** The roadway block: four header lines, then one row per zipped pair. */
  function RoadwayLines(c: CrossingRecord, num: real -> string): (r: seq<string>)
    ensures |r| == 4 + Min(|c.roadwayStations|, |c.roadwayElevations|)
  {
    ["ROADWAYSHAPE " + IntToString(c.roadwayShape),
     "ROADWIDTH " + num(c.roadwayWidth),
     "SURFACE " + IntToString(SurfaceCode(c.roadwaySurface)),
     "NUMSTATIONS " + IntToString(|c.roadwayStations|)]
    + StationRows(Zip(c.roadwayStations, c.roadwayElevations), num)
  }

  /** Every barrel's own block, in list order; when each barrel writes 12
      lines, the section has 12 lines per barrel. */
  function CulvertBlocks(culverts: seq<Culvert>, block: Culvert -> seq<string>): (r: seq<string>)
    ensures (forall k :: 0 <= k < |culverts| ==> |block(culverts[k])| == 12) ==> |r| == 12 * |culverts|
  {
    if culverts == [] then []
    else CulvertBlocks(culverts[..|culverts| - 1], block) + block(culverts[|culverts| - 1])
  }

  /** The culvert section: the count line, then the barrels' blocks. */
  function CulvertLines(culverts: seq<Culvert>, block: Culvert -> seq<string>): (r: seq<string>)
    ensures |r| == 1 + |CulvertBlocks(culverts, block)|
  {
    ["NUMCULVERTS  " + IntToString(|culverts|)] + CulvertBlocks(culverts, block)
  }

  /** The identifier line is written from a plain (not formatted) string
      literal, so it carries the text `{self.uuid}` and not the identifier. */
  const GuidLine := "CROSSGUID            {self.uuid}"

  /** The identifier section: the one literal line when an identifier is set. */
  function GuidLines(uuid: Option<string>): (r: seq<string>)
    ensures r == [] <==> uuid.None?
    ensures forall line :: line in r ==> line == GuidLine
  {
    if uuid.Some? then [GuidLine] else []
  }

  /** The whole crossing record, for a crossing whose flow list is current. */
  function CrossingLines(c: CrossingRecord, render: Render): (r: seq<string>)
    ensures |r| >= 21 + |c.flow.flowList|
  {
    HeaderLines(c.name, c.notes)
    + DischargeLines(c.flow, render.number)
    + TailwaterLines(c, render.number)
    + RatingCurveLines(c.twRatingCurve, render.number)
    + RoadwayLines(c, render.number)
    + CulvertLines(c.culverts, render.culvert)
    + GuidLines(c.uuid)
    + ["ENDCROSSING"]
  }

  // ---------------------------------------------------------------------
  // The crossing object

  class Crossing {
    var name: string
    var notes: string
    var flow: Flow
    var twType: int
    var twBottomWidth: real
    var twSideslope: real
    var twChannelSlope: real
    var twManningN: real
    var twConstantElevation: real
    var twInvertElevation: real
    var twRatingCurve: seq<RatingPoint>
    var roadwayShape: int
    var roadwayWidth: real
    var roadwayStations: seq<real>
    var roadwayElevations: seq<real>
    var roadwaySurface: string
    var culverts: seq<Culvert>
    var uuid: Option<string>

    function Record(): CrossingRecord
      reads this, flow
    {
      CrossingRecord(name, notes, flow.Record(), twType, twBottomWidth, twSideslope,
                     twChannelSlope, twManningN, twConstantElevation, twInvertElevation,
                     twRatingCurve, roadwayShape, roadwayWidth, roadwayStations,
                     roadwayElevations, roadwaySurface, culverts, uuid)
    }

    /** `Hy8RunnerCulvertCrossing(count)`. */
    constructor (count: int)
      ensures fresh(flow) && flow.Record() == DefaultFlow()
      ensures name == "Crossing " + IntToString(count + 1) && notes == ""
      ensures twType == 1 && twSideslope == 1.0
      ensures twBottomWidth == twChannelSlope == twManningN == 0.0
      ensures twConstantElevation == twInvertElevation == 0.0
      ensures twRatingCurve == []
      ensures roadwayShape == 1 && roadwayWidth == 0.0
      ensures roadwayStations == [] && roadwayElevations == []
      ensures roadwaySurface == "paved"
      ensures culverts == [DefaultCulvert(0)]
      ensures uuid == None
    {
      name := "Crossing " + IntToString(count + 1);
      notes := "";
      flow := new Flow();
      twType := 1;
      twBottomWidth := 0.0;
      twSideslope := 1.0;
      twChannelSlope := 0.0;
      twManningN := 0.0;
      twConstantElevation := 0.0;
      twInvertElevation := 0.0;
      twRatingCurve := [];
      roadwayShape := 1;
      roadwayWidth := 0.0;
      roadwayStations := [];
      roadwayElevations := [];
      roadwaySurface := "paved";
      culverts := [DefaultCulvert(0)];
      uuid := None;
    }

    /** `write_crossing_to_file`: recomputes the flow list, then writes the
        crossing record line by line. It never reports a failure. */
    method WriteCrossingToFile(hy8File: Hy8File, render: Render) returns (result: bool, messages: string)
      requires Computable(flow.Record())
      modifies flow, hy8File
      ensures flow.Record() == ComputedFlow(old(flow.Record()))
      ensures Record() == old(Record()).(flow := flow.Record())
      ensures hy8File.lines == old(hy8File.lines) + CrossingLines(Record(), render)
      ensures result && messages == ""
    {
      messages := "";
      result := true;
      var num := render.number;

      ghost var start := hy8File.lines;
      hy8File.Write("STARTCROSSING   " + Quoted(name));
      hy8File.Write("STARTCROSSNOTES    " + Quoted(notes));
      AppendAssoc(start, ["STARTCROSSING   " + Quoted(name)], ["STARTCROSSNOTES    " + Quoted(notes)]);
      ghost var written := HeaderLines(name, notes);
      assert hy8File.lines == start + written;

      WriteDischarge(hy8File, num);
      AppendAssoc(start, written, DischargeLines(flow.Record(), num));
      written := written + DischargeLines(flow.Record(), num);

      WriteTailwater(hy8File, num);
      AppendAssoc(start, written, TailwaterLines(Record(), num));
      written := written + TailwaterLines(Record(), num);

      WriteRatingCurve(hy8File, num);
      AppendAssoc(start, written, RatingCurveLines(twRatingCurve, num));
      written := written + RatingCurveLines(twRatingCurve, num);

      WriteRoadway(hy8File, num);
      AppendAssoc(start, written, RoadwayLines(Record(), num));
      written := written + RoadwayLines(Record(), num);

      WriteCulverts(hy8File, render.culvert);
      AppendAssoc(start, written, CulvertLines(culverts, render.culvert));
      written := written + CulvertLines(culverts, render.culvert);

      ghost var beforeGuid := hy8File.lines;
      if uuid.Some? {
        hy8File.Write(GuidLine);
      }
      assert hy8File.lines == beforeGuid + GuidLines(uuid);
      AppendAssoc(start, written, GuidLines(uuid));
      written := written + GuidLines(uuid);

      hy8File.Write("ENDCROSSING");
      AppendAssoc(start, written, ["ENDCROSSING"]);
      written := written + ["ENDCROSSING"];
      assert written == CrossingLines(Record(), render);
    }

    /** The discharge block: compute_list, then range, method code, count and flows. */
    method WriteDischarge(hy8File: Hy8File, num: real -> string)
      requires Computable(flow.Record())
      modifies flow, hy8File
      ensures flow.Record() == ComputedFlow(old(flow.Record()))
      ensures hy8File.lines == old(hy8File.lines) + DischargeLines(flow.Record(), num)
    {
      flow.ComputeList();
      var dischargeMethod := 0;
      if flow.flowMethod != MinDesignMax {
        dischargeMethod := 1;
      }
      ghost var start := hy8File.lines;
      var range := "DISCHARGERANGE " + num(flow.flowMin) + " " + num(flow.flowDesign) + " " + num(flow.flowMax);
      var methodLine := "DISCHARGEMETHOD " + IntToString(dischargeMethod);
      var count := "DISCHARGEXYUSER " + IntToString(|flow.flowList|);
      hy8File.Write(range);
      hy8File.Write(methodLine);
      hy8File.Write(count);
      WriteFlowRows(hy8File, flow.flowList, num);
      AppendThree(start, range, methodLine, count, FlowRows(flow.flowList, num));
    }

    /** Tailwater type, channel geometry and the fixed six-row legacy table. */
    method WriteTailwater(hy8File: Hy8File, num: real -> string)
      modifies hy8File
      ensures hy8File.lines == old(hy8File.lines) + TailwaterLines(Record(), num)
    {
      ghost var start := hy8File.lines;
      var typeLine := "TAILWATERTYPE " + IntToString(twType);
      var geometry := "CHANNELGEOMETRY " + num(twBottomWidth) + " " + num(twSideslope) + " "
                      + num(twChannelSlope) + " " + num(twManningN) + " " + num(twInvertElevation);
      var twList := TwList(twConstantElevation);
      var count := "NUMRATINGCURVE " + IntToString(|twList|);
      var first := "TWRATINGCURVE " + TwValues(twList[0], num);
      hy8File.Write(typeLine);
      hy8File.Write(geometry);
      hy8File.Write(count);
      hy8File.Write(first);
      WriteTwRows(hy8File, twList, num);
      AppendFour(start, typeLine, geometry, count, first, TwRows(twList, num));
    }

    /** The user rating curve, when there is one. */
    method WriteRatingCurve(hy8File: Hy8File, num: real -> string)
      modifies hy8File
      ensures hy8File.lines == old(hy8File.lines) + RatingCurveLines(twRatingCurve, num)
    {
      var size := |twRatingCurve|;
      if size > 0 {
        ghost var start := hy8File.lines;
        var count := "NUMPOINTS " + IntToString(size);
        hy8File.Write("RATINGCURVE");
        hy8File.Write(count);
        WritePointRows(hy8File, twRatingCurve, num);
        hy8File.Write("END RATINGCURVE");
        AppendFramed(start, "RATINGCURVE", count, PointRows(twRatingCurve, num), "END RATINGCURVE");
      }
    }

    /** Roadway shape, width, surface code, and the zipped station rows. */
    method WriteRoadway(hy8File: Hy8File, num: real -> string)
      modifies hy8File
      ensures hy8File.lines == old(hy8File.lines) + RoadwayLines(Record(), num)
    {
      var surfaceIndex := 1;
      if roadwaySurface == "gravel" {
        surfaceIndex := 2;
      } else if roadwaySurface == "user-defined" {
        surfaceIndex := 3;
      }
      ghost var start := hy8File.lines;
      var shape := "ROADWAYSHAPE " + IntToString(roadwayShape);
      var width := "ROADWIDTH " + num(roadwayWidth);
      var surface := "SURFACE " + IntToString(surfaceIndex);
      var count := "NUMSTATIONS " + IntToString(|roadwayStations|);
      hy8File.Write(shape);
      hy8File.Write(width);
      hy8File.Write(surface);
      hy8File.Write(count);
      var pairs := Zip(roadwayStations, roadwayElevations);
      WriteStationRows(hy8File, pairs, num);
      AppendFour(start, shape, width, surface, count, StationRows(pairs, num));
    }

    /** The culvert count, then each barrel's own block in list order. */
    method WriteCulverts(hy8File: Hy8File, block: Culvert -> seq<string>)
      modifies hy8File
      ensures hy8File.lines == old(hy8File.lines) + CulvertLines(culverts, block)
    {
      ghost var start := hy8File.lines;
      var count := "NUMCULVERTS  " + IntToString(|culverts|);
      hy8File.Write(count);
      WriteCulvertBlocks(hy8File, culverts, block);
      AppendAssoc(start, [count], CulvertBlocks(culverts, block));
    }
  }

  // Regrouping what was written line by line into the block that specifies it.

  lemma AppendAssoc<T>(a: seq<T>, b: seq<T>, c: seq<T>)
    ensures (a + b) + c == a + (b + c)
  {
  }

  lemma AppendThree<T>(s: seq<T>, x: T, y: T, z: T, rest: seq<T>)
    ensures s + [x] + [y] + [z] + rest == s + ([x, y, z] + rest)
  {
  }

  lemma AppendFour<T>(s: seq<T>, w: T, x: T, y: T, z: T, rest: seq<T>)
    ensures s + [w] + [x] + [y] + [z] + rest == s + ([w, x, y, z] + rest)
  {
  }

  lemma AppendFramed<T>(s: seq<T>, x: T, y: T, rows: seq<T>, z: T)
    ensures s + [x] + [y] + rows + [z] == s + ([x, y] + rows + [z])
  {
  }

  // ---------------------------------------------------------------------
  // The loops of the serializer, one per repeated row

  /** `for flow in flow_list`. */
  method WriteFlowRows(hy8File: Hy8File, flows: seq<real>, num: real -> string)
    modifies hy8File
    ensures hy8File.lines == old(hy8File.lines) + FlowRows(flows, num)
  {
    for i := 0 to |flows|
      invariant hy8File.lines == old(hy8File.lines) + FlowRows(flows[..i], num)
    {
      assert flows[..i + 1][..i] == flows[..i];
      hy8File.Write(FlowRow(flows[i], num));
    }
    assert flows[..|flows|] == flows;
  }

  /** `for tw in tw_list`. */
  method WriteTwRows(hy8File: Hy8File, twList: seq<real>, num: real -> string)
    modifies hy8File
    ensures hy8File.lines == old(hy8File.lines) + TwRows(twList, num)
  {
    for i := 0 to |twList|
      invariant hy8File.lines == old(hy8File.lines) + TwRows(twList[..i], num)
    {
      assert twList[..i + 1][..i] == twList[..i];
      hy8File.Write(TwRow(twList[i], num));
    }
    assert twList[..|twList|] == twList;
  }

  /** `for index in range(size)`: flow, elevation and velocity of each point. */
  method WritePointRows(hy8File: Hy8File, points: seq<RatingPoint>, num: real -> string)
    modifies hy8File
    ensures hy8File.lines == old(hy8File.lines) + PointRows(points, num)
  {
    for index := 0 to |points|
      invariant hy8File.lines == old(hy8File.lines) + PointRows(points[..index], num)
    {
      assert points[..index + 1][..index] == points[..index];
      ghost var before := hy8File.lines;
      var flowLine := "\tFLOW " + num(points[index].flow);
      var elevationLine := "\tELEVATION " + num(points[index].elevation);
      var velocityLine := "\tVELOCITY " + num(points[index].velocity);
      hy8File.Write(flowLine);
      hy8File.Write(elevationLine);
      hy8File.Write(velocityLine);
      AppendThree(before, flowLine, elevationLine, velocityLine, []);
      assert [flowLine, elevationLine, velocityLine] + [] == PointLines(points[index], num);
      AppendAssoc(old(hy8File.lines), PointRows(points[..index], num), PointLines(points[index], num));
    }
    assert points[..|points|] == points;
  }

  /** `for station, elevation in zip(...)`, with the card name switching from
      ROADWAYSECDATA to ROADWAYPOINT after the first row. */
  method WriteStationRows(hy8File: Hy8File, pairs: seq<(real, real)>, num: real -> string)
    modifies hy8File
    ensures hy8File.lines == old(hy8File.lines) + StationRows(pairs, num)
  {
    var roadwayCardname := FirstCard;
    for i := 0 to |pairs|
      invariant roadwayCardname == Card(i)
      invariant hy8File.lines == old(hy8File.lines) + StationRows(pairs[..i], num)
    {
      assert pairs[..i + 1][..i] == pairs[..i];
      hy8File.Write(StationRow(roadwayCardname, pairs[i], num));
      roadwayCardname := LaterCard;
    }
    assert pairs[..|pairs|] == pairs;
  }

  /** `for culvert in self.culverts: culvert.write_culvert_to_file(hy8_file)`. */
  method WriteCulvertBlocks(hy8File: Hy8File, culverts: seq<Culvert>, block: Culvert -> seq<string>)
    modifies hy8File
    ensures hy8File.lines == old(hy8File.lines) + CulvertBlocks(culverts, block)
  {
    for i := 0 to |culverts|
      invariant hy8File.lines == old(hy8File.lines) + CulvertBlocks(culverts[..i], block)
    {
      assert culverts[..i + 1][..i] == culverts[..i];
      hy8File.WriteLines(block(culverts[i]));
    }
    assert culverts[..|culverts|] == culverts;
  }
}
