/** The persisted form of a sticky: flat numeric geometry fields, with
    computed `position` and `size` accessors. */
module StickyEntityModel {
  import opened Wrappers
  import opened StickyModel

  class StickyEntity {
    var id: Uuid
    var title: string
    var positionX: real
    var positionY: real
    var width: real
    var height: real
    var transparency: real
    var alwaysOnTop: bool
    var filter: Option<string>
    var sortBy: Option<string>
    var sortOrder: Option<string>
    var visibleColumns: seq<string>

    /** A newly inserted entity: the scalar attributes read as zero and the
        optional ones as nil. Id, title and columns get placeholders, since
        the source leaves them nil. */
    constructor ()
      ensures Position() == Point(0.0, 0.0) && Size() == StickyModel.Size(0.0, 0.0)
      ensures transparency == 0.0 && !alwaysOnTop
      ensures filter.None? && sortBy.None? && sortOrder.None?
    {
      id, title := 0, "";
      positionX, positionY, width, height := 0.0, 0.0, 0.0, 0.0;
      transparency, alwaysOnTop := 0.0, false;
      filter, sortBy, sortOrder := None, None, None;
      visibleColumns := [];
    }

    /** The `position` getter. */
    function Position(): (p: Point)
      reads this`positionX, this`positionY
      ensures p.x == positionX && p.y == positionY
    {
      Point(positionX, positionY)
    }

    /** The `size` getter. */
    function Size(): (s: Size)
      reads this`width, this`height
      ensures s.width == width && s.height == height
    {
      StickyModel.Size(width, height)
    }

    /** The `position` setter: writes the two coordinates and nothing else. */
    method SetPosition(p: Point)
      modifies this`positionX, this`positionY
      ensures Position() == p
    {
      positionX := p.x;
      positionY := p.y;
    }

    /** The `size` setter: writes width and height and nothing else. */
    method SetSize(s: Size)
      modifies this`width, this`height
      ensures Size() == s
    {
      width := s.width;
      height := s.height;
    }

    /** `toSticky`: the entity's attributes as a sticky value. */
    function ToSticky(): (s: Sticky)
      reads this
      ensures s.id == id && s.title == title
      ensures s.position == Position() && s.size == Size()
      ensures s.transparency == transparency && s.alwaysOnTop == alwaysOnTop
      ensures s.filter == filter && s.sortBy == sortBy && s.sortOrder == sortOrder
      ensures s.visibleColumns == visibleColumns
    {
      Sticky(id, title, Position(), Size(), transparency, alwaysOnTop, filter, sortBy, sortOrder, visibleColumns)
    }

    /** `fromSticky`: a new entity holding every field of the sticky, so that
        converting it back gives the same sticky. */
    static method FromSticky(sticky: Sticky) returns (entity: StickyEntity)
      ensures fresh(entity)
      ensures entity.id == sticky.id && entity.title == sticky.title
      ensures entity.positionX == sticky.position.x && entity.positionY == sticky.position.y
      ensures entity.width == sticky.size.width && entity.height == sticky.size.height
      ensures entity.transparency == sticky.transparency && entity.alwaysOnTop == sticky.alwaysOnTop
      ensures entity.filter == sticky.filter && entity.sortBy == sticky.sortBy && entity.sortOrder == sticky.sortOrder
      ensures entity.visibleColumns == sticky.visibleColumns
      ensures entity.ToSticky() == sticky
    {
      entity := new StickyEntity();
      entity.id := sticky.id;
      entity.title := sticky.title;
      entity.SetPosition(sticky.position);
      entity.SetSize(sticky.size);
      entity.transparency := sticky.transparency;
      entity.alwaysOnTop := sticky.alwaysOnTop;
      entity.filter := sticky.filter;
      entity.sortBy := sticky.sortBy;
      entity.sortOrder := sticky.sortOrder;
      entity.visibleColumns := sticky.visibleColumns;
    }
  }

  /** Converting an entity to a sticky and back reproduces every attribute. */
  method EntityRoundTrip(entity: StickyEntity) returns (copy: StickyEntity)
    ensures fresh(copy)
    ensures copy.id == entity.id && copy.title == entity.title
    ensures copy.positionX == entity.positionX && copy.positionY == entity.positionY
    ensures copy.width == entity.width && copy.height == entity.height
    ensures copy.transparency == entity.transparency && copy.alwaysOnTop == entity.alwaysOnTop
    ensures copy.filter == entity.filter && copy.sortBy == entity.sortBy && copy.sortOrder == entity.sortOrder
    ensures copy.visibleColumns == entity.visibleColumns
  {
    copy := StickyEntity.FromSticky(entity.ToSticky());
  }
}
