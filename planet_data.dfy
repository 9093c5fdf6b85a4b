/**
 * Planet positions: every raw planet record is placed on the configured
 * grid by its `coord` label, shifted by its optional `offset`, and kept
 * otherwise as it was.
 */
module PlanetData {
  import opened Wrappers
  import opened GridMapping

  /** The grid layout shared by rendering and coordinate mapping. */
  const GridSize: real := 200.0
  const Divisions: real := 21.0

  /**
   * One record of the raw planet data: its grid label, its offset (None when
   * the record has no `offset` or a falsy one) and all its other fields,
   * carried opaquely as `Fields`.
   */
  datatype RawPlanet<Fields> = RawPlanet(coord: string, offset: Option<Vec3>, fields: Fields)

  /** A processed record: the raw record's fields plus the derived `position`. */
  datatype Planet<Fields> = Planet(coord: string, offset: Option<Vec3>, fields: Fields, position: Vec3)

  /** `p.offset || [0, 0, 0]`: the record's offset, or the zero vector when it has none. */
  function OffsetOrZero(offset: Option<Vec3>): (d: Vec3)
    ensures offset.Some? ==> d == offset.value
    ensures offset.None? ==> d == Vec3(0.0, 0.0, 0.0)
  {
    match offset
    case Some(v) => v
    case None => Vec3(0.0, 0.0, 0.0)
  }

  /** Component-wise sum: a position moves exactly when the offset is not the zero vector. */
  function Add(a: Vec3, b: Vec3): (r: Vec3)
    ensures r == a <==> b == Vec3(0.0, 0.0, 0.0)
  {
    Vec3(a.x + b.x, a.y + b.y, a.z + b.z)
  }

  /**
   * `q` is `p` with a position added: every field of `p` kept, and the
   * position the grid position of `p.coord` shifted by the offset. This is
   * `ProcessPlanet` written as a relation, not an independent specification;
   * what it promises is proved about it in `MissingOffsetIsZero`,
   * `HeightComesFromOffset` and `PlanetOnConfiguredGrid`.
   */
  ghost predicate DerivedFrom<Fields>(q: Planet<Fields>, p: RawPlanet<Fields>) {
    && q.coord == p.coord
    && q.offset == p.offset
    && q.fields == p.fields
    && var base := GridMapper(p.coord, GridSize, Divisions);
       base.Some? && q.position == Add(base.value, OffsetOrZero(p.offset))
  }

  /** The callback given to `rawPlanetData.map`: None where the mapper throws. */
  function ProcessPlanet<Fields>(p: RawPlanet<Fields>): (r: Option<Planet<Fields>>)
    ensures r.Some? <==> GridMapper(p.coord, GridSize, Divisions).Some?
    ensures r.Some? ==> DerivedFrom(r.value, p)
  {
    match GridMapper(p.coord, GridSize, Divisions)
    case None => None
    case Some(base) => Some(Planet(p.coord, p.offset, p.fields, Add(base, OffsetOrZero(p.offset))))
  }

  /**
   * `xs.map(f)` for a callback that may throw (None): the results in order,
   * or None as soon as one call throws, since the exception escapes `map`.
   */
  function MapOrThrow<A, B>(f: A -> Option<B>, xs: seq<A>): (r: Option<seq<B>>)
    ensures r.Some? <==> forall i :: 0 <= i < |xs| ==> f(xs[i]).Some?
    ensures r.Some? ==> |r.value| == |xs|
    ensures r.Some? ==> forall i :: 0 <= i < |xs| ==> f(xs[i]) == Some(r.value[i])
  {
    if |xs| == 0 then Some([])
    else
      match f(xs[0])
      case None => None
      case Some(first) =>
        match MapOrThrow(f, xs[1..])
        case None => None
        case Some(rest) => Some([first] + rest)
  }

  /**
   * Mapping distributes over concatenation: the elements of a joined list
   * are mapped independently and in order.
   */
  lemma {:induction false} MapOrThrowAppend<A, B>(f: A -> Option<B>, a: seq<A>, b: seq<A>)
    ensures MapOrThrow(f, a + b).Some? <==> MapOrThrow(f, a).Some? && MapOrThrow(f, b).Some?
    ensures MapOrThrow(f, a + b).Some? ==>
      MapOrThrow(f, a + b).value == MapOrThrow(f, a).value + MapOrThrow(f, b).value
  {
    if |a| == 0 {
      assert a + b == b;
    } else {
      var ab := a + b;
      assert ab[0] == a[0] && ab[1..] == a[1..] + b;
      MapOrThrowAppend(f, a[1..], b);
      var head, tail, rest := f(a[0]), MapOrThrow(f, a[1..]), MapOrThrow(f, b);
      if head.Some? && tail.Some? && rest.Some? {
        assert [head.value] + (tail.value + rest.value) == ([head.value] + tail.value) + rest.value;
      }
    }
  }

  /**
   * `rawPlanetData.map(...)`: the processed records in the same order, or
   * None when some record's label is rejected.
   */
  function ProcessPlanets<Fields>(raw: seq<RawPlanet<Fields>>): (r: Option<seq<Planet<Fields>>>)
    ensures r.Some? <==> forall i :: 0 <= i < |raw| ==> GridMapper(raw[i].coord, GridSize, Divisions).Some?
    ensures r.Some? ==> |r.value| == |raw|
    ensures r.Some? ==> forall i :: 0 <= i < |raw| ==> DerivedFrom(r.value[i], raw[i])
  {
    MapOrThrow(ProcessPlanet, raw)
  }

  /** A record with no offset sits exactly on its grid position. */
  lemma MissingOffsetIsZero<Fields>(q: Planet<Fields>, p: RawPlanet<Fields>)
    requires DerivedFrom(q, p) && p.offset.None?
    ensures Some(q.position) == GridMapper(p.coord, GridSize, Divisions)
  {
  }

  /** The grid contributes no height: a planet's z is its offset's z. */
  lemma HeightComesFromOffset<Fields>(q: Planet<Fields>, p: RawPlanet<Fields>)
    requires DerivedFrom(q, p)
    ensures q.position.z == OffsetOrZero(p.offset).z
  {
  }

  /**
   * On the configured grid a planet whose label names cell (col, row) sits at
   * (10 (col - 10), 10 (10 - row), 0) shifted by its offset.
   */
  lemma PlanetOnConfiguredGrid<Fields>(q: Planet<Fields>, p: RawPlanet<Fields>)
    requires DerivedFrom(q, p)
    ensures LabelIndices(p.coord).Some?
    ensures var (col, row) := LabelIndices(p.coord).value;
      var d := OffsetOrZero(p.offset);
      q.position == Vec3((10 * (col - 10)) as real + d.x, (10 * (10 - row)) as real + d.y, d.z)
  {
    ConfiguredGridLattice(p.coord);
  }
}
