/**
 * The demonstration configuration: four columns 20% / auto / auto / 20%,
 * two rows 15% / auto, on an 800 x 600 viewport.
 */
module Demo {
  import opened Grid

  const DemoColumns: seq<CellSize> := [Percent(20.0), Auto, Auto, Percent(20.0)]
  const DemoRows: seq<CellSize> := [Percent(15.0), Auto]

  /** The percentage columns take 160 each; the two auto columns share the remaining 480. */
  lemma DemoColumnSizes()
    ensures AxisSizes(DemoColumns, 800.0) == [160.0, 240.0, 240.0, 160.0]
  {
    var s := DemoColumns;
    var s1, s2, s3 := s[..1], s[..2], s[..3];
    assert s1[..0] == [] && s2[..1] == s1 && s3[..2] == s2 && s[..3] == s3;
    assert PercentTotal(s1, 800.0) == 160.0 && AutoTracks(s1) == 0;
    assert PercentTotal(s2, 800.0) == 160.0 && AutoTracks(s2) == 1;
    assert PercentTotal(s3, 800.0) == 160.0 && AutoTracks(s3) == 2;
    assert PercentTotal(s, 800.0) == 320.0 && AutoTracks(s) == 2;
    AxisAuto(s, 800.0, 1);
    AxisAuto(s, 800.0, 2);
    var sizes := AxisSizes(s, 800.0);
    assert |sizes| == 4;
    assert sizes[0] == 160.0 && sizes[1] == 240.0 && sizes[2] == 240.0 && sizes[3] == 160.0;
  }

  /** The percentage row takes 90; the auto row takes the remaining 510. */
  lemma DemoRowSizes()
    ensures AxisSizes(DemoRows, 600.0) == [90.0, 510.0]
  {
    var s := DemoRows;
    assert s[..1][..0] == [];
    assert PercentTotal(s, 600.0) == 90.0;
    assert AutoTracks(s) == 1;
    AxisAuto(s, 600.0, 1);
  }

  /**
   * Building the demonstration layout succeeds, and its grid has eight
   * cells, from `(0, 0, 160, 90)` to `(640, 90, 800, 600)`.
   */
  method DemoGrid() returns (grid: seq<Rect>)
    ensures |grid| == 8
    ensures grid[0] == Rect(0.0, 0.0, 160.0, 90.0)
    ensures grid[7] == Rect(640.0, 90.0, 800.0, 600.0)
  {
    var built := GridLayout.New()
      .WithColumns(DemoColumns)
      .WithRows(DemoRows)
      .WithViewport(800, 600)
      .Build();
    assert built.Ok?;
    var layout := built.value;
    grid := layout.GetGrid();

    DemoColumnSizes();
    DemoRowSizes();
    var cols, rows := layout.ColumnSizes(), layout.RowSizes();
    assert cols == [160.0, 240.0, 240.0, 160.0] && rows == [90.0, 510.0];
    CellAt(cols, rows, 0, 0);
    CellAt(cols, rows, 1, 3);
    assert cols[..3][..2][..1][..0] == [];
    assert rows[..1][..0] == [];
  }
}
