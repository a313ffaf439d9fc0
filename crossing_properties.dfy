/** What the crossing record promises, block by block and as a whole: the
    discharge block follows the recomputed flow list, the legacy rating table
    is always six rows at the constant elevation, the user rating curve is
    present exactly when it has points, the roadway rows follow `zip`, the
    culvert blocks keep the list order, and the identifier line appears
    exactly when an identifier is set. */
module CrossingProperties {
  import opened Numerals
  import opened FlowModel
  import opened CulvertModel
  import opened Sink
  import opened CrossingModel
  import opened RecordText

  // ---------------------------------------------------------------------
  // Small numerals the record uses

  lemma SmallNumerals()
    ensures IntToString(0) == "0" && IntToString(1) == "1" && IntToString(3) == "3"
    ensures IntToString(6) == "6"
  {
    assert NatToString(0) == "0" && NatToString(1) == "1";
    assert NatToString(3) == "3" && NatToString(6) == "6";
  }

  // ---------------------------------------------------------------------
  // The blocks

  /** After compute_list the DISCHARGEMETHOD line reads 0 exactly for the
      min-design-max method and 1 otherwise, the count line gives the length
      of the recomputed list, and the rows list it in order; for
      min-design-max these are the three rows min, design and max. */
  lemma DischargeOfComputedFlow(f: FlowRecord, num: real -> string)
    requires Computable(f)
    ensures var list := ComputedFlow(f).flowList;
      var d := DischargeLines(ComputedFlow(f), num);
      |d| == 3 + |list| &&
      d[0] == "DISCHARGERANGE " + num(f.flowMin) + " " + num(f.flowDesign) + " " + num(f.flowMax) &&
      (d[1] == "DISCHARGEMETHOD 0" <==> f.flowMethod == MinDesignMax) &&
      (d[1] == "DISCHARGEMETHOD 1" <==> f.flowMethod != MinDesignMax) &&
      d[2] == "DISCHARGEXYUSER " + IntToString(|list|) &&
      (forall i :: 0 <= i < |list| ==> d[3 + i] == FlowRow(list[i], num)) &&
      (f.flowMethod == MinDesignMax ==>
         d[2] == "DISCHARGEXYUSER 3" &&
         d[3..] == [FlowRow(f.flowMin, num), FlowRow(f.flowDesign, num), FlowRow(f.flowMax, num)])
  {
    var g := ComputedFlow(f);
    var d := DischargeLines(g, num);
    SmallNumerals();
    var code := DischargeMethodCode(f.flowMethod);
    assert d[1] == "DISCHARGEMETHOD " + IntToString(code);
    if d[1] == "DISCHARGEMETHOD 0" {
      assert IntToString(code) == (d[1])[16..] == "0";
      assert code == 0;
    }
    if d[1] == "DISCHARGEMETHOD 1" {
      assert IntToString(code) == (d[1])[16..] == "1";
      assert code == 1;
    }
    if f.flowMethod == MinDesignMax {
      var rows := FlowRows(g.flowList, num);
      assert d[3..] == rows;
    }
  }

  /** The legacy rating table: the count line says 6, the TWRATINGCURVE line
      and all six rows carry the constant elevation with zero velocity, shear
      and Froude number. */
  lemma LegacyRatingTable(c: CrossingRecord, num: real -> string)
    ensures var t := TailwaterLines(c, num);
      |t| == 10 &&
      t[0] == "TAILWATERTYPE " + IntToString(c.twType) &&
      t[2] == "NUMRATINGCURVE 6" &&
      t[3] == "TWRATINGCURVE " + num(c.twConstantElevation) + " " + num(0.0) + " " + num(0.0) + " " + num(0.0) &&
      forall k :: 4 <= k < 10 ==>
        t[k] == "              " + num(c.twConstantElevation) + " " + num(0.0) + " " + num(0.0) + " " + num(0.0)
  {

  }

  /** The user rating curve block is there exactly when the curve has
      points; it then has 3n + 3 lines: RATINGCURVE, the point count, three
      lines per point in order, and END RATINGCURVE. */
  lemma RatingCurveBlock(points: seq<RatingPoint>, num: real -> string)
    ensures var r := RatingCurveLines(points, num);
      (r == [] <==> points == []) &&
      |r| == (if points == [] then 0 else 3 * |points| + 3) &&
      (points != [] ==>
         r[0] == "RATINGCURVE" &&
         r[1] == "NUMPOINTS " + IntToString(|points|) &&
         r[|r| - 1] == "END RATINGCURVE" &&
         forall i :: 0 <= i < |points| ==>
           r[2 + 3 * i] == "\tFLOW " + num(points[i].flow) &&
           r[3 + 3 * i] == "\tELEVATION " + num(points[i].elevation) &&
           r[4 + 3 * i] == "\tVELOCITY " + num(points[i].velocity))
  {

  }

  /** The roadway block: NUMSTATIONS counts the stations, while the rows
      stop at the shorter of the two lists; the first row is ROADWAYSECDATA
      and every later one ROADWAYPOINT. */
  lemma RoadwayBlock(c: CrossingRecord, num: real -> string)
    ensures var w := RoadwayLines(c, num);
      var n := Min(|c.roadwayStations|, |c.roadwayElevations|);
      |w| == 4 + n &&
      w[0] == "ROADWAYSHAPE " + IntToString(c.roadwayShape) &&
      w[1] == "ROADWIDTH " + num(c.roadwayWidth) &&
      w[2] == "SURFACE " + IntToString(SurfaceCode(c.roadwaySurface)) &&
      w[3] == "NUMSTATIONS " + IntToString(|c.roadwayStations|) &&
      (n > 0 ==> w[4] == FirstCard + " " + num(c.roadwayStations[0]) + " " + num(c.roadwayElevations[0])) &&
      forall i :: 1 <= i < n ==>
        w[4 + i] == LaterCard + " " + num(c.roadwayStations[i]) + " " + num(c.roadwayElevations[i])
  {

  }

  /** Every count the record writes reads back from its line: the number of
      flow rows, the 6 of the legacy table, the number of rating-curve points,
      the number of stations (not of station rows) and the number of barrels. */
  lemma CountsReadBack(c: CrossingRecord, render: Render)
    ensures CountLine(DischargeLines(c.flow, render.number)[2], "DISCHARGEXYUSER ", |c.flow.flowList|)
    ensures CountLine(TailwaterLines(c, render.number)[2], "NUMRATINGCURVE ", 6)
    ensures c.twRatingCurve != [] ==>
      CountLine(RatingCurveLines(c.twRatingCurve, render.number)[1], "NUMPOINTS ", |c.twRatingCurve|)
    ensures CountLine(RoadwayLines(c, render.number)[3], "NUMSTATIONS ", |c.roadwayStations|)
    ensures CountLine(CulvertLines(c.culverts, render.culvert)[0], "NUMCULVERTS  ", |c.culverts|)
  {
    CountLineReadsBack("DISCHARGEXYUSER ", |c.flow.flowList|);
    CountLineReadsBack("NUMRATINGCURVE ", 6);
    CountLineReadsBack("NUMPOINTS ", |c.twRatingCurve|);
    CountLineReadsBack("NUMSTATIONS ", |c.roadwayStations|);
    CountLineReadsBack("NUMCULVERTS  ", |c.culverts|);
  }

  /** With every barrel writing a 12-line block, the barrels' blocks follow
      one another in list order: block k occupies lines 12k to 12k + 11. */
  lemma {:induction false} CulvertBlocksInOrder(culverts: seq<Culvert>, block: Culvert -> seq<string>)
    requires forall k :: 0 <= k < |culverts| ==> |block(culverts[k])| == 12
    ensures |CulvertBlocks(culverts, block)| == 12 * |culverts|
    ensures forall k, j :: 0 <= k < |culverts| && 0 <= j < 12 ==>
      CulvertBlocks(culverts, block)[12 * k + j] == block(culverts[k])[j]
  {
    if culverts != [] {
      var m := |culverts| - 1;
      var init := culverts[..m];
      CulvertBlocksInOrder(init, block);
      var all := CulvertBlocks(culverts, block);
      var front := CulvertBlocks(init, block);
      var last := block(culverts[m]);
      assert all == front + last;
      forall k, j | 0 <= k < |culverts| && 0 <= j < 12
        ensures all[12 * k + j] == block(culverts[k])[j]
      {
        if k < m {
          assert all[12 * k + j] == front[12 * k + j];
          assert culverts[k] == init[k];
        } else {
          assert all[12 * k + j] == last[j];
        }
      }
    }
  }

  /** The identifier line is one fixed text, whatever the identifier is. */
  lemma GuidLineIgnoresIdentifier(a: string, b: string)
    ensures GuidLines(Some(a)) == GuidLines(Some(b)) == [GuidLine]
    ensures GuidLines(None) == []
    ensures GuidLine == "CROSSGUID" + "            " + "{self.uuid}"
  {
  }

  // ---------------------------------------------------------------------
  // The whole record

  /** The size of the record: 21 fixed lines, plus the flows, the user
      rating curve when present, the zipped station rows, the culvert
      blocks, and the identifier line when set. */
  function RecordSize(c: CrossingRecord, culvertLines: nat): nat
  {
    21 + |c.flow.flowList|
    + (if c.twRatingCurve == [] then 0 else 3 * |c.twRatingCurve| + 3)
    + Min(|c.roadwayStations|, |c.roadwayElevations|)
    + culvertLines
    + (if c.uuid.Some? then 1 else 0)
  }

  /** Every barrel writes a well-formed block of its own, as the culvert
      tests pin it. */
  predicate PinnedCulverts(c: CrossingRecord, render: Render)
  {
    forall k :: 0 <= k < |c.culverts| ==>
      PinnedBlock(c.culverts[k], render.culvert(c.culverts[k]), render.number)
  }

  /** The culvert section of a record whose barrels write pinned blocks:
      the count line, then 12 lines per barrel, ending in ENDCULVERT when
      there is a barrel. */
  lemma PinnedCulvertLines(c: CrossingRecord, render: Render)
    requires PinnedCulverts(c, render)
    ensures var u := CulvertLines(c.culverts, render.culvert);
      |u| == 1 + 12 * |c.culverts| &&
      u[0] == "NUMCULVERTS  " + IntToString(|c.culverts|) &&
      u[|u| - 1] == (if c.culverts == [] then u[0] else "ENDCULVERT")
  {
    CulvertBlocksInOrder(c.culverts, render.culvert);
    if c.culverts != [] {
      var m := |c.culverts| - 1;
      var u := CulvertLines(c.culverts, render.culvert);
      var blocks := CulvertBlocks(c.culverts, render.culvert);
      assert u[|u| - 1] == blocks[12 * m + 11] == render.culvert(c.culverts[m])[11];
    }
  }

  /** The size of the record, with 12 lines per barrel. */
  lemma CrossingSize(c: CrossingRecord, render: Render)
    requires PinnedCulverts(c, render)
    ensures |CrossingLines(c, render)| == RecordSize(c, 12 * |c.culverts|)
  {
    LegacyRatingTable(c, render.number);
    RatingCurveBlock(c.twRatingCurve, render.number);
    RoadwayBlock(c, render.number);
    PinnedCulvertLines(c, render);
  }

  /** The header is lossless: the name and the notes read back from
      between the quotes of their lines. */
  lemma HeaderReadsBack(name: string, notes: string)
    ensures var h := HeaderLines(name, notes);
      QuotedLine(h[0], "STARTCROSSING   ", name) && QuotedLine(h[1], "STARTCROSSNOTES    ", notes)
  {

  }

  /** The frame of the record: it opens with the name and the notes and
      closes with ENDCROSSING. */
  lemma CrossingFrame(c: CrossingRecord, render: Render)
    ensures var lines := CrossingLines(c, render);
      |lines| >= 3 &&
      lines[0] == "STARTCROSSING   " + Quoted(c.name) &&
      lines[1] == "STARTCROSSNOTES    " + Quoted(c.notes) &&
      lines[|lines| - 1] == "ENDCROSSING"
  {
    var num := render.number;
    Framed(HeaderLines(c.name, c.notes), DischargeLines(c.flow, num), TailwaterLines(c, num),
      RatingCurveLines(c.twRatingCurve, num), RoadwayLines(c, num),
      CulvertLines(c.culverts, render.culvert), GuidLines(c.uuid), "ENDCROSSING");
  }

  /** The first two and the last element of a record made of eight parts. */
  lemma Framed<T>(a: seq<T>, b: seq<T>, c: seq<T>, d: seq<T>, e: seq<T>, f: seq<T>, g: seq<T>, z: T)
    requires |a| == 2
    ensures var s := a + b + c + d + e + f + g + [z];
      |s| >= 3 && s[0] == a[0] && s[1] == a[1] && s[|s| - 1] == z
  {
  }

  /** The next-to-last line of the record is the identifier line exactly
      when an identifier is set (a barrel's block ends in ENDCULVERT, and
      the count line starts differently from the identifier line). */
  lemma CrossingGuid(c: CrossingRecord, render: Render)
    requires PinnedCulverts(c, render)
    ensures var lines := CrossingLines(c, render);
      |lines| >= 2 && (lines[|lines| - 2] == GuidLine <==> c.uuid.Some?)
  {

  }

  // ---------------------------------------------------------------------
  // The crossing test, replayed

  /** The barrel of the crossing test: a 10 x 2 corrugated-steel box from
      station 0.0 at elevation 100.0 to station 100.0 at elevation 98.0. */
  function TestCulvert(): Culvert
  {
    DefaultCulvert(0).(shape := "box", material := "corrugated steel", span := 10.0,
      rise := 2.0, inletInvertElevation := 100.0, inletInvertStation := 0.0,
      outletInvertElevation := 98.0, outletInvertStation := 100.0, numberOfBarrels := 1)
  }

  /** The numbers of the test as Python's `str` writes them. */
  predicate TestNumbers(num: real -> string)
  {
    num(0.0) == "0.0" && num(1.0) == "1.0" && num(2.0) == "2.0" && num(10.0) == "10.0" &&
    num(98.0) == "98.0" && num(100.0) == "100.0"
  }

  /** The test's barrel block, from what the culvert tests pin. */
  lemma TestCulvertBlock(num: real -> string, block: seq<string>)
    requires TestNumbers(num)
    requires PinnedBlock(TestCulvert(), block, num)
    ensures block == TestBlock
  {
    TestBlockRendering();
    TestBlockGeometry(num);
  }

  /** The rendered lines of the test barrel that carry values: the name
      and the barrel count. */
  lemma TestBlockRendering()
    ensures "STARTCULVERT    " + Quoted(TestCulvert().name) == TestBlock[0]
    ensures "NUMBEROFBARRELS " + IntToString(1) == TestBlock[5]
  {
    SmallNumerals();
  }

  /** The rendered lines of the test barrel that carry values: its geometry. */
  lemma TestBlockGeometry(num: real -> string)
    requires TestNumbers(num)
    ensures "BARRELDATA  " + num(10.0) + " " + num(2.0) + " 0.012 0.012" == TestBlock[3]
    ensures "INVERTDATA " + num(0.0) + " " + num(100.0) + " " + num(100.0) + " " + num(98.0) == TestBlock[6]
  {
  }

  /** The crossing of the test after compute_list. */
  function TestRecord(): CrossingRecord
  {
    CrossingRecord("Crossing " + IntToString(1), "This is a test note.",
      ComputedFlow(DefaultFlow()), 6, 0.0, 1.0, 0.0, 0.0, 0.0, 0.0, [], 1, 0.0, [], [],
      "paved", [TestCulvert()], None)
  }

  const TestHeader := ["STARTCROSSING   \"Crossing 1\"", "STARTCROSSNOTES    \"This is a test note.\""]
  const TestDischarge := [
    "DISCHARGERANGE 0.0 0.0 0.0",
    "DISCHARGEMETHOD 0",
    "DISCHARGEXYUSER 3",
    "DISCHARGEXYUSER_Y 0.0",
    "DISCHARGEXYUSER_Y 0.0",
    "DISCHARGEXYUSER_Y 0.0"]
  const TestTailwater := [
    "TAILWATERTYPE 6",
    "CHANNELGEOMETRY 0.0 1.0 0.0 0.0 0.0",
    "NUMRATINGCURVE 6",
    "TWRATINGCURVE 0.0 0.0 0.0 0.0",
    "              0.0 0.0 0.0 0.0",
    "              0.0 0.0 0.0 0.0",
    "              0.0 0.0 0.0 0.0",
    "              0.0 0.0 0.0 0.0",
    "              0.0 0.0 0.0 0.0",
    "              0.0 0.0 0.0 0.0"]
  const TestRoadway := ["ROADWAYSHAPE 1", "ROADWIDTH 0.0", "SURFACE 1", "NUMSTATIONS 0"]
  const TestCulverts := ["NUMCULVERTS  1"] + TestBlock
  const TestBlock := [
    "STARTCULVERT    \"Culvert 1\"",
    "CULVERTSHAPE    2",
    "CULVERTMATERIAL 1",
    "BARRELDATA  10.0 2.0 0.012 0.012",
    "EMBANKMENTTYPE 2",
    "NUMBEROFBARRELS 1",
    "INVERTDATA 0.0 100.0 100.0 98.0",
    "ROADCULVSTATION 0.0",
    "BARRELSPACING 15.0",
    "STARTCULVNOTES \"\"",
    "ENDCULVNOTES",
    "ENDCULVERT"]

  /** The 36 lines `test_write_crossing_to_file` reads back, section by section. */
  function ExpectedTestLines(): (lines: seq<string>)
    ensures |lines| == 36
  {
    TestHeader + TestDischarge + TestTailwater + TestRoadway + TestCulverts + ["ENDCROSSING"]
  }

  /** `test_write_crossing_to_file`: a default crossing with a note,
      tailwater type 6 and the test barrel writes exactly these 36 lines. */
  method WriteCrossingTest(render: Render) returns (lines: seq<string>)
    requires TestNumbers(render.number)
    requires PinnedBlock(TestCulvert(), render.culvert(TestCulvert()), render.number)
    ensures lines == ExpectedTestLines()
  {
    var crossing := new Crossing(0);
    crossing.notes := "This is a test note.";
    crossing.twType := 6;
    crossing.culverts := [TestCulvert()];
    var hy8File := new Hy8File();
    ghost var before := crossing.Record();
    assert before == TestRecord().(flow := DefaultFlow());
    var result, messages := crossing.WriteCrossingToFile(hy8File, render);
    lines := hy8File.lines;
    assert crossing.Record() == TestRecord();
    TestLines(render);
  }

  lemma TestHeaderLines()
    ensures HeaderLines("Crossing " + IntToString(1), "This is a test note.") == TestHeader
  {
    var h := HeaderLines("Crossing " + IntToString(1), "This is a test note.");
    assert h[0] == TestHeader[0] by {
      SmallNumerals();
    }
    assert h[1] == TestHeader[1];
  }

  lemma TestDischargeLines(num: real -> string)
    requires TestNumbers(num)
    ensures DischargeLines(TestRecord().flow, num) == TestDischarge
  {
    SmallNumerals();
    var f := TestRecord().flow;
    var d := DischargeLines(f, num);
    assert f.flowList == [0.0, 0.0, 0.0];
    assert d[0] == TestDischarge[0];
    assert d[1] == TestDischarge[1];
    assert d[2] == TestDischarge[2];
    assert FlowRow(0.0, num) == TestDischarge[3];
  }

  lemma TestTailwaterLines(c: CrossingRecord, num: real -> string)
    requires TestNumbers(num)
    requires c.twType == 6 && c.twSideslope == 1.0
    requires c.twBottomWidth == c.twChannelSlope == c.twManningN == 0.0
    requires c.twConstantElevation == c.twInvertElevation == 0.0
    ensures TailwaterLines(c, num) == TestTailwater
  {
    var t := TailwaterLines(c, num);
    assert t[0] == TestTailwater[0] by { SmallNumerals(); }
    assert t[1] == TestTailwater[1];
    assert t[2] == TestTailwater[2] by { SmallNumerals(); }
    assert t[3] == TestTailwater[3];
    assert TwRow(0.0, num) == TestTailwater[4];
  }

  lemma TestRoadwayLines(num: real -> string)
    requires TestNumbers(num)
    ensures RoadwayLines(TestRecord(), num) == TestRoadway
  {
    SmallNumerals();
    var w := RoadwayLines(TestRecord(), num);
    assert w[0] == TestRoadway[0];
    assert w[1] == TestRoadway[1];
    assert w[2] == TestRoadway[2];
    assert w[3] == TestRoadway[3];
  }

  lemma TestCulvertLines(render: Render)
    requires TestNumbers(render.number)
    requires PinnedBlock(TestCulvert(), render.culvert(TestCulvert()), render.number)
    ensures CulvertLines(TestRecord().culverts, render.culvert) == TestCulverts
  {
    SmallNumerals();
    var block := render.culvert(TestCulvert());
    TestCulvertBlock(render.number, block);
    assert CulvertBlocks([TestCulvert()], render.culvert) == block by {
      assert [TestCulvert()][..0] == [];
    }
    assert "NUMCULVERTS  " + IntToString(1) == "NUMCULVERTS  1";
  }

  /** The record of the test crossing, block by block. */
  lemma TestLines(render: Render)
    requires TestNumbers(render.number)
    requires PinnedBlock(TestCulvert(), render.culvert(TestCulvert()), render.number)
    ensures CrossingLines(TestRecord(), render) == ExpectedTestLines()
  {
    var c := TestRecord();
    TestHeaderLines();
    TestDischargeLines(render.number);
    TestTailwaterLines(c, render.number);
    assert RatingCurveLines(c.twRatingCurve, render.number) == [];
    TestRoadwayLines(render.number);
    TestCulvertLines(render);
    assert GuidLines(c.uuid) == [];
  }
}
