/** One culvert barrel of a crossing (Hy8RunnerCulvertBarrel), as far as the
    crossing serializer needs it: the barrel's fields, its defaults, and what
    the culvert tests pin of the block the barrel writes for itself.

    The implementing file hy8runner/hy8_runner_culvert.py is not part of this
    model, so the block writer stays a parameter of the crossing emitter and
    its code mappings (shape and material codes) are left open here except
    where a test fixes them. */
module CulvertModel {
  import opened Numerals
  import opened RecordText

  datatype Culvert = Culvert(
    name: string,
    shape: string,
    material: string,
    span: real,
    rise: real,
    inletInvertStation: real,
    inletInvertElevation: real,
    outletInvertStation: real,
    outletInvertElevation: real,
    numberOfBarrels: int)

  /** `Hy8RunnerCulvertBarrel(count)`: a circular concrete barrel named after
      its position, with zero geometry and a single barrel. */
  function DefaultCulvert(count: int): (c: Culvert)
    ensures c.name == "Culvert " + IntToString(count + 1)
    ensures c.shape == "circle" && c.material == "concrete" && c.numberOfBarrels == 1
    ensures c.span == c.rise == 0.0
    ensures c.inletInvertStation == c.inletInvertElevation == 0.0
    ensures c.outletInvertStation == c.outletInvertElevation == 0.0
  {
    Culvert("Culvert " + IntToString(count + 1), "circle", "concrete",
            0.0, 0.0, 0.0, 0.0, 0.0, 0.0, 1)
  }

  /** What the culvert and crossing tests fix of the 12-line block a barrel
      writes: the keywords and their order, the quoted name, the geometry,
      the constants, and the shape and material codes for the inputs the
      tests use. `num` renders a number as the source's `str` does. */
  predicate PinnedBlock(c: Culvert, block: seq<string>, num: real -> string)
    ensures PinnedBlock(c, block, num) ==> |block| == 12 && block[11] == "ENDCULVERT"
  {
    |block| == 12 &&
    block[0] == "STARTCULVERT    " + Quoted(c.name) &&
    (c.shape == "box" ==> block[1] == "CULVERTSHAPE    2") &&
    (c.material == "concrete" || c.material == "corrugated steel" ==>
       block[2] == "CULVERTMATERIAL 1") &&
    block[3] == "BARRELDATA  " + num(c.span) + " " + num(c.rise) + " 0.012 0.012" &&
    block[4] == "EMBANKMENTTYPE 2" &&
    block[5] == "NUMBEROFBARRELS " + IntToString(c.numberOfBarrels) &&
    block[6] == "INVERTDATA " + num(c.inletInvertStation) + " " + num(c.inletInvertElevation)
                + " " + num(c.outletInvertStation) + " " + num(c.outletInvertElevation) &&
    block[7] == "ROADCULVSTATION 0.0" &&
    block[8] == "BARRELSPACING 15.0" &&
    block[9] == "STARTCULVNOTES \"\"" &&
    block[10] == "ENDCULVNOTES" &&
    block[11] == "ENDCULVERT"
  }

  /** A pinned block is lossless where it carries the barrel's identity:
      the name reads back from between the quotes of the first line, and the
      number of barrels from the NUMBEROFBARRELS line. */
  lemma PinnedBlockReadsBack(c: Culvert, block: seq<string>, num: real -> string)
    requires PinnedBlock(c, block, num)
    ensures QuotedLine(block[0], "STARTCULVERT    ", c.name)
    ensures CountLine(block[5], "NUMBEROFBARRELS ", c.numberOfBarrels)
  {
    QuotedLineReadsBack("STARTCULVERT    ", c.name);
    CountLineReadsBack("NUMBEROFBARRELS ", c.numberOfBarrels);
  }

  /** The block of the culvert test: a 10 x 5 concrete box from station 0.0
      at elevation 100.0 to station 100.0 at elevation 98.0. */
  lemma CulvertTestBlock(num: real -> string, block: seq<string>)
    requires num(0.0) == "0.0" && num(100.0) == "100.0" && num(98.0) == "98.0"
    requires num(10.0) == "10.0" && num(5.0) == "5.0"
    requires PinnedBlock(DefaultCulvert(0).(shape := "box", span := 10.0, rise := 5.0,
               inletInvertElevation := 100.0, outletInvertStation := 100.0,
               outletInvertElevation := 98.0), block, num)
    ensures block == [
      "STARTCULVERT    \"Culvert 1\"",
      "CULVERTSHAPE    2",
      "CULVERTMATERIAL 1",
      "BARRELDATA  10.0 5.0 0.012 0.012",
      "EMBANKMENTTYPE 2",
      "NUMBEROFBARRELS 1",
      "INVERTDATA 0.0 100.0 100.0 98.0",
      "ROADCULVSTATION 0.0",
      "BARRELSPACING 15.0",
      "STARTCULVNOTES \"\"",
      "ENDCULVNOTES",
      "ENDCULVERT"]
  {
    assert IntToString(1) == "1";
    assert DefaultCulvert(0).name == "Culvert 1";
    assert block[0] == "STARTCULVERT    \"Culvert 1\"";
    assert block[3] == "BARRELDATA  10.0 5.0 0.012 0.012";
    assert block[5] == "NUMBEROFBARRELS 1";
    assert block[6] == "INVERTDATA 0.0 100.0 100.0 98.0";
  }
}
