/** The sticky value types: one sticky window and a partial settings patch. */
module StickyModel {
  import opened Wrappers

  /** A sticky's identifier; only compared for equality. */
  type Uuid = nat

  /** Window geometry; only copied and compared, never computed with. */
  datatype Point = Point(x: real, y: real)
  datatype Size = Size(width: real, height: real)

  datatype Sticky = Sticky(
    id: Uuid,
    title: string,
    position: Point,
    size: Size,
    transparency: real,
    alwaysOnTop: bool,
    filter: Option<string>,
    sortBy: Option<string>,
    sortOrder: Option<string>,
    visibleColumns: seq<string>)

  /** A settings patch: every field optional. */
  datatype StickySettings = StickySettings(
    transparency: Option<real>,
    alwaysOnTop: Option<bool>,
    filter: Option<string>,
    sortBy: Option<string>,
    sortOrder: Option<string>,
    visibleColumns: Option<seq<string>>)

  /** `StickySettings()` with every argument defaulted. */
  const NoSettings: StickySettings := StickySettings(None, None, None, None, None, None)
}
