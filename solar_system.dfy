/**
 * The solar-system generator of src/components/systems/solarSystem.js.
 *
 * `generateSolarSystem` appends to the caller's body list one star, then each
 * planet directly followed by its moons, then a field of asteroids.  Every
 * number it samples comes from the random source, and so do the two spin
 * rates drawn by the `CelestialBody` constructor and the orbit speed drawn by
 * the `Planet` and `Moon` constructors.  The bodies here are the generator's
 * own records of what it sampled, not the rendered objects.
 */
module SolarSystem {
  import opened Draws

  const StarSize: real := 5.0
  /** 0xffff00 */
  const StarColor: real := 16776960.0
  /** 0xffffff: colours are drawn as `Math.random() * 0xffffff`. */
  const ColorRange: real := 16777215.0

  /** Draws consumed per body, counting those of its constructor. */
  const StarDraws: nat := 2
  const PlanetDraws: nat := 8
  const MoonDraws: nat := 8
  const AsteroidDraws: nat := 7

  /** Largest number of draws one generation can consume: 2 + 1 + 10 * (8 + 1 + 4 * 8) + 1 + 99 * 7. */
  const MaxDraws: nat := 1107

  datatype Body =
    | Star(size: real, color: real, spinX: real, spinY: real)
    | Planet(size: real, color: real, semiMajorAxis: real, eccentricity: real, orbitalPeriod: real,
             spinX: real, spinY: real, orbitSpeed: real)
    | Moon(size: real, color: real, semiMajorAxis: real, eccentricity: real, orbitalPeriod: real,
           spinX: real, spinY: real, orbitSpeed: real)
    | Asteroid(size: real, color: real, spinX: real, spinY: real, x: real, y: real, z: real)

  /** A planet with the moons generated right after it. */
  datatype PlanetGroup = PlanetGroup(planet: Body, moons: seq<Body>)

  /** One generated system, before it is flattened into the body list. */
  datatype System = System(star: Body, groups: seq<PlanetGroup>, asteroids: seq<Body>)

  /** Rotation rate drawn by the `CelestialBody` constructor: `(r - 0.5) * 0.02`. */
  function Spin(r: real): real {
    (r - 0.5) * 0.02
  }

  // ---------------------------------------------------------------------------
  // Which draw feeds which field
  // ---------------------------------------------------------------------------

  function StarAt(s: Stream, at: nat): Body {
    Star(StarSize, StarColor, Spin(s(at)), Spin(s(at + 1)))
  }

  function PlanetAt(s: Stream, at: nat): Body {
    Planet(s(at) * 2.0 + 1.0, s(at + 1) * ColorRange, s(at + 2) * 50.0 + 20.0, s(at + 3) * 0.2,
           s(at + 4) * 50.0 + 20.0, Spin(s(at + 5)), Spin(s(at + 6)), s(at + 7) * 0.01)
  }

  function MoonAt(s: Stream, at: nat, planetSize: real): Body {
    var size := s(at) * 0.5 + 0.1;
    Moon(size, s(at + 1) * ColorRange, planetSize + size + s(at + 2), s(at + 3) * 0.2,
         s(at + 4) * 10.0 + 5.0, Spin(s(at + 5)), Spin(s(at + 6)), s(at + 7) * 0.02)
  }

  function AsteroidAt(s: Stream, at: nat): Body {
    Asteroid(s(at) * 0.2 + 0.1, s(at + 1) * ColorRange, Spin(s(at + 2)), Spin(s(at + 3)),
             s(at + 4) * 100.0 - 50.0, s(at + 5) * 100.0 - 50.0, s(at + 6) * 100.0 - 50.0)
  }

  function NumPlanets(r: real): nat
    requires IsDraw(r)
  {
    Pick(r, 10) + 1
  }

  function NumMoons(r: real): nat
    requires IsDraw(r)
  {
    Pick(r, 5)
  }

  function NumAsteroids(r: real): nat
    requires IsDraw(r)
  {
    Pick(r, 50) + 50
  }

  function MoonsAt(s: Stream, at: nat, planetSize: real, n: nat): seq<Body> {
    seq(n, j requires 0 <= j < n => MoonAt(s, at + MoonDraws * j, planetSize))
  }

  function AsteroidsAt(s: Stream, at: nat, n: nat): seq<Body> {
    seq(n, k requires 0 <= k < n => AsteroidAt(s, at + AsteroidDraws * k))
  }

  /** The planet whose draws start at `at`, with its moon count and moons. */
  function GroupAt(s: Stream, at: nat): PlanetGroup
    requires ValidStream(s)
  {
    var planet := PlanetAt(s, at);
    PlanetGroup(planet, MoonsAt(s, at + PlanetDraws + 1, planet.size, NumMoons(s(at + PlanetDraws))))
  }

  function GroupEnd(s: Stream, at: nat): nat
    requires ValidStream(s)
  {
    at + PlanetDraws + 1 + MoonDraws * NumMoons(s(at + PlanetDraws))
  }

  /** The first `n` planet groups whose draws start at `at`. */
  function GroupsAt(s: Stream, at: nat, n: nat): (gs: seq<PlanetGroup>)
    requires ValidStream(s)
    ensures |gs| == n
  {
    if n == 0 then [] else GroupsAt(s, at, n - 1) + [GroupAt(s, GroupsEnd(s, at, n - 1))]
  }

  function GroupsEnd(s: Stream, at: nat, n: nat): nat
    requires ValidStream(s)
  {
    if n == 0 then at else GroupEnd(s, GroupsEnd(s, at, n - 1))
  }

  /** Where the asteroid count is drawn. */
  function AsteroidCountAt(s: Stream, at: nat): nat
    requires ValidStream(s)
  {
    GroupsEnd(s, at + StarDraws + 1, NumPlanets(s(at + StarDraws)))
  }

  /** The system generated from the draws starting at `at`. */
  function SystemAt(s: Stream, at: nat): System
    requires ValidStream(s)
  {
    var c := AsteroidCountAt(s, at);
    System(StarAt(s, at),
           GroupsAt(s, at + StarDraws + 1, NumPlanets(s(at + StarDraws))),
           AsteroidsAt(s, c + 1, NumAsteroids(s(c))))
  }

  /** The index of the first draw after the generation. */
  function SystemEnd(s: Stream, at: nat): nat
    requires ValidStream(s)
  {
    var c := AsteroidCountAt(s, at);
    c + 1 + AsteroidDraws * NumAsteroids(s(c))
  }

  /** The order in which the generator appends bodies. */
  function FlattenGroups(gs: seq<PlanetGroup>): seq<Body> {
    if gs == [] then []
    else FlattenGroups(gs[..|gs| - 1]) + [gs[|gs| - 1].planet] + gs[|gs| - 1].moons
  }

  function Flatten(sys: System): seq<Body> {
    [sys.star] + FlattenGroups(sys.groups) + sys.asteroids
  }

  function MoonTotal(gs: seq<PlanetGroup>): nat {
    if gs == [] then 0 else MoonTotal(gs[..|gs| - 1]) + |gs[|gs| - 1].moons|
  }

  // ---------------------------------------------------------------------------
  // Parameter ranges
  // ---------------------------------------------------------------------------

  ghost predicate SpinInRange(b: Body) {
    -0.01 <= b.spinX < 0.01 && -0.01 <= b.spinY < 0.01
  }

  ghost predicate PlanetInRange(b: Body) {
    && b.Planet?
    && 1.0 <= b.size < 3.0
    && 0.0 <= b.color < ColorRange
    && 20.0 <= b.semiMajorAxis < 70.0
    && 0.0 <= b.eccentricity < 0.2
    && 20.0 <= b.orbitalPeriod < 70.0
    && SpinInRange(b)
    && 0.0 <= b.orbitSpeed < 0.01
  }

  ghost predicate MoonInRange(b: Body, planetSize: real) {
    && b.Moon?
    && 0.1 <= b.size < 0.6
    && 0.0 <= b.color < ColorRange
    && planetSize + b.size <= b.semiMajorAxis < planetSize + b.size + 1.0
    && 0.0 <= b.eccentricity < 0.2
    && 5.0 <= b.orbitalPeriod < 15.0
    && SpinInRange(b)
    && 0.0 <= b.orbitSpeed < 0.02
  }

  ghost predicate AsteroidInRange(b: Body) {
    && b.Asteroid?
    && 0.1 <= b.size < 0.3
    && 0.0 <= b.color < ColorRange
    && SpinInRange(b)
    && -50.0 <= b.x < 50.0 && -50.0 <= b.y < 50.0 && -50.0 <= b.z < 50.0
  }

  ghost predicate GroupInRange(g: PlanetGroup) {
    && PlanetInRange(g.planet)
    && |g.moons| <= 4
    && forall m :: m in g.moons ==> MoonInRange(m, g.planet.size)
  }

  // ---------------------------------------------------------------------------
  // The generator
  // ---------------------------------------------------------------------------

  /**
   * `generateSolarSystem`: appends the generated bodies to `prior` (the
   * caller's list), drawing from `s` starting at `start`; returns the
   * extended list and the index of the next unused draw.
   */
  method GenerateSolarSystem(s: Stream, start: nat, prior: seq<Body>) returns (bodies: seq<Body>, next: nat)
    requires ValidStream(s)
    ensures bodies == prior + Flatten(SystemAt(s, start))
    ensures next == SystemEnd(s, start)
  {
    var cursor := start;
    bodies := prior;

    var star := Star(StarSize, StarColor, Spin(s(cursor)), Spin(s(cursor + 1)));
    cursor := cursor + StarDraws;
    bodies := bodies + [star];

    var numPlanets := Pick(s(cursor), 10) + 1;
    cursor := cursor + 1;
    bodies, cursor := AppendPlanets(s, cursor, numPlanets, bodies);

    SystemParts(s, start, star, numPlanets, cursor);
    ghost var sys := SystemAt(s, start);
    AppendAssoc(prior, [star], FlattenGroups(sys.groups), sys.asteroids);
    bodies, next := AppendAsteroids(s, cursor, bodies);
  }

  /** The parts of the generated system, named by the generator's own variables. */
  lemma SystemParts(s: Stream, start: nat, star: Body, numPlanets: nat, cursor: nat)
    requires ValidStream(s)
    requires star == StarAt(s, start) && numPlanets == NumPlanets(s(start + StarDraws))
    requires cursor == GroupsEnd(s, start + StarDraws + 1, numPlanets)
    ensures SystemAt(s, start).star == star
    ensures SystemAt(s, start).groups == GroupsAt(s, start + StarDraws + 1, numPlanets)
    ensures SystemAt(s, start).asteroids == AsteroidsAt(s, cursor + 1, NumAsteroids(s(cursor)))
    ensures Flatten(SystemAt(s, start))
         == [star] + FlattenGroups(GroupsAt(s, start + StarDraws + 1, numPlanets)) + AsteroidsAt(s, cursor + 1, NumAsteroids(s(cursor)))
    ensures SystemEnd(s, start) == cursor + 1 + AsteroidDraws * NumAsteroids(s(cursor))
  {
  }

  /** The planet loop: `numPlanets` planets, each followed by its moons. */
  method AppendPlanets(s: Stream, at: nat, numPlanets: nat, prior: seq<Body>) returns (bodies: seq<Body>, next: nat)
    requires ValidStream(s)
    ensures bodies == prior + FlattenGroups(GroupsAt(s, at, numPlanets))
    ensures next == GroupsEnd(s, at, numPlanets)
  {
    bodies, next := prior, at;
    var i := 0;
    while i < numPlanets
      invariant 0 <= i <= numPlanets
      invariant next == GroupsEnd(s, at, i)
      invariant bodies == prior + FlattenGroups(GroupsAt(s, at, i))
    {
      GroupsStep(s, at, i);
      var group := GroupAt(s, next);
      AppendAssoc(prior, FlattenGroups(GroupsAt(s, at, i)), [group.planet], group.moons);
      bodies, next := AppendPlanet(s, next, bodies);
      i := i + 1;
    }
  }

  lemma AppendAssoc<T>(a: seq<T>, b: seq<T>, c: seq<T>, d: seq<T>)
    ensures a + b + c + d == a + (b + c + d)
  {
  }

  /** A slice of the middle part of a three-part concatenation. */
  lemma MiddleSlice<T>(a: seq<T>, b: seq<T>, c: seq<T>, lo: nat, hi: nat)
    requires lo <= hi <= |b|
    ensures lo < |b| ==> (a + b + c)[|a| + lo] == b[lo]
    ensures (a + b + c)[|a| + lo..|a| + hi] == b[lo..hi]
  {
  }

  /** The groups after one more planet: the old ones, then the new group. */
  lemma GroupsStep(s: Stream, at: nat, n: nat)
    requires ValidStream(s)
    ensures GroupsEnd(s, at, n + 1) == GroupEnd(s, GroupsEnd(s, at, n))
    ensures FlattenGroups(GroupsAt(s, at, n + 1))
         == FlattenGroups(GroupsAt(s, at, n)) + [GroupAt(s, GroupsEnd(s, at, n)).planet]
            + GroupAt(s, GroupsEnd(s, at, n)).moons
  {
    var gs := GroupsAt(s, at, n + 1);
    assert gs[..n] == GroupsAt(s, at, n);
  }

  /** One iteration of the planet loop: a planet, its moon count, its moons. */
  method AppendPlanet(s: Stream, at: nat, prior: seq<Body>) returns (bodies: seq<Body>, next: nat)
    requires ValidStream(s)
    ensures bodies == prior + [GroupAt(s, at).planet] + GroupAt(s, at).moons
    ensures next == GroupEnd(s, at)
  {
    var cursor := at;
    var planetSize := s(cursor) * 2.0 + 1.0;
    var planetColor := s(cursor + 1) * ColorRange;
    var semiMajorAxis := s(cursor + 2) * 50.0 + 20.0;
    var eccentricity := s(cursor + 3) * 0.2;
    var orbitalPeriod := s(cursor + 4) * 50.0 + 20.0;
    var planet := Planet(planetSize, planetColor, semiMajorAxis, eccentricity, orbitalPeriod,
                         Spin(s(cursor + 5)), Spin(s(cursor + 6)), s(cursor + 7) * 0.01);
    assert planet == PlanetAt(s, at);
    cursor := cursor + PlanetDraws;
    bodies := prior + [planet];

    var numMoons := Pick(s(cursor), 5);
    cursor := cursor + 1;
    bodies, next := AppendMoons(s, cursor, planetSize, numMoons, bodies);
  }

  /** The moon loop of one planet: `numMoons` moons whose orbits start beyond `planetSize`. */
  method AppendMoons(s: Stream, at: nat, planetSize: real, numMoons: nat, prior: seq<Body>)
    returns (bodies: seq<Body>, next: nat)
    ensures bodies == prior + MoonsAt(s, at, planetSize, numMoons)
    ensures next == at + MoonDraws * numMoons
  {
    var cursor := at;
    bodies := prior;
    var j := 0;
    while j < numMoons
      invariant 0 <= j <= numMoons
      invariant cursor == at + MoonDraws * j
      invariant bodies == prior + MoonsAt(s, at, planetSize, j)
    {
      var moonSize := s(cursor) * 0.5 + 0.1;
      var moonColor := s(cursor + 1) * ColorRange;
      var moonSemiMajorAxis := planetSize + moonSize + s(cursor + 2);
      var moonEccentricity := s(cursor + 3) * 0.2;
      var moonOrbitalPeriod := s(cursor + 4) * 10.0 + 5.0;
      var moon := Moon(moonSize, moonColor, moonSemiMajorAxis, moonEccentricity, moonOrbitalPeriod,
                       Spin(s(cursor + 5)), Spin(s(cursor + 6)), s(cursor + 7) * 0.02);
      MoonsSnoc(s, at, planetSize, j);
      cursor := cursor + MoonDraws;
      bodies := bodies + [moon];
      j := j + 1;
    }
    next := cursor;
  }

  lemma MoonsSnoc(s: Stream, at: nat, planetSize: real, j: nat)
    ensures MoonsAt(s, at, planetSize, j + 1) == MoonsAt(s, at, planetSize, j) + [MoonAt(s, at + MoonDraws * j, planetSize)]
  {
  }

  lemma AsteroidsSnoc(s: Stream, at: nat, k: nat)
    ensures AsteroidsAt(s, at, k + 1) == AsteroidsAt(s, at, k) + [AsteroidAt(s, at + AsteroidDraws * k)]
  {
  }

  /** The asteroid count and the asteroid loop. */
  method AppendAsteroids(s: Stream, at: nat, prior: seq<Body>) returns (bodies: seq<Body>, next: nat)
    requires ValidStream(s)
    ensures bodies == prior + AsteroidsAt(s, at + 1, NumAsteroids(s(at)))
    ensures next == at + 1 + AsteroidDraws * NumAsteroids(s(at))
  {
    var cursor := at;
    var numAsteroids := Pick(s(cursor), 50) + 50;
    cursor := cursor + 1;
    bodies := prior;
    var k := 0;
    while k < numAsteroids
      invariant 0 <= k <= numAsteroids
      invariant cursor == at + 1 + AsteroidDraws * k
      invariant bodies == prior + AsteroidsAt(s, at + 1, k)
    {
      var asteroidSize := s(cursor) * 0.2 + 0.1;
      var asteroidColor := s(cursor + 1) * ColorRange;
      var asteroid := Asteroid(asteroidSize, asteroidColor, Spin(s(cursor + 2)), Spin(s(cursor + 3)),
                               s(cursor + 4) * 100.0 - 50.0, s(cursor + 5) * 100.0 - 50.0, s(cursor + 6) * 100.0 - 50.0);
      AsteroidsSnoc(s, at + 1, k);
      cursor := cursor + AsteroidDraws;
      bodies := bodies + [asteroid];
      k := k + 1;
    }
    next := cursor;
  }

  // ---------------------------------------------------------------------------
  // What the generated system looks like
  // ---------------------------------------------------------------------------

  lemma GroupInRangeAt(s: Stream, at: nat)
    requires ValidStream(s)
    ensures GroupInRange(GroupAt(s, at))
  {
    var g := GroupAt(s, at);
    forall m | m in g.moons
      ensures MoonInRange(m, g.planet.size)
    {
      var j :| 0 <= j < |g.moons| && g.moons[j] == m;
    }
  }

  /** Every planet group drawn is within the generator's ranges. */
  lemma {:induction false} GroupsInRange(s: Stream, at: nat, n: nat)
    requires ValidStream(s)
    ensures forall g :: g in GroupsAt(s, at, n) ==> GroupInRange(g)
  {
    if n > 0 {
      GroupsInRange(s, at, n - 1);
      GroupInRangeAt(s, GroupsEnd(s, at, n - 1));
    }
  }

  /**
   * The star has size 5 and colour 0xffff00; there are 1 to 10 planets with
   * 0 to 4 moons each and 50 to 99 asteroids; every sampled parameter lies in
   * the range its formula gives for draws in [0,1).
   */
  lemma SystemShape(s: Stream, at: nat)
    requires ValidStream(s)
    ensures var sys := SystemAt(s, at);
      && sys.star.Star? && sys.star.size == StarSize && sys.star.color == StarColor && SpinInRange(sys.star)
      && 1 <= |sys.groups| <= 10
      && (forall g :: g in sys.groups ==> GroupInRange(g))
      && 50 <= |sys.asteroids| <= 99
      && (forall a :: a in sys.asteroids ==> AsteroidInRange(a))
  {
    var c := AsteroidCountAt(s, at);
    GroupsInRange(s, at + StarDraws + 1, NumPlanets(s(at + StarDraws)));
    AsteroidsInRange(s, c + 1, NumAsteroids(s(c)));
  }

  /** Every asteroid's parameters lie in the ranges their formulas give. */
  lemma AsteroidsInRange(s: Stream, at: nat, n: nat)
    requires ValidStream(s)
    ensures forall a :: a in AsteroidsAt(s, at, n) ==> AsteroidInRange(a)
  {
    var asteroids := AsteroidsAt(s, at, n);
    forall a | a in asteroids
      ensures AsteroidInRange(a)
    {
      var k :| 0 <= k < |asteroids| && asteroids[k] == a;
    }
  }

  /** Flattening a prefix of the groups gives a prefix of the flattened groups. */
  lemma {:induction false} FlattenGroupsPrefix(gs: seq<PlanetGroup>, k: nat)
    requires k <= |gs|
    ensures FlattenGroups(gs[..k]) <= FlattenGroups(gs)
  {
    if k < |gs| {
      var init := gs[..|gs| - 1];
      assert init[..k] == gs[..k];
      FlattenGroupsPrefix(init, k);
    } else {
      assert gs[..k] == gs;
    }
  }

  lemma {:induction false} FlattenGroupsLength(gs: seq<PlanetGroup>)
    ensures |FlattenGroups(gs)| == |gs| + MoonTotal(gs)
  {
    if gs != [] {
      FlattenGroupsLength(gs[..|gs| - 1]);
    }
  }

  /** Group `g` of the flattened groups: its planet, then its moons. */
  lemma GroupLayout(gs: seq<PlanetGroup>, g: nat)
    requires g < |gs|
    ensures var o := |FlattenGroups(gs[..g])|;
      && o + 1 + |gs[g].moons| <= |FlattenGroups(gs)|
      && FlattenGroups(gs)[o] == gs[g].planet
      && FlattenGroups(gs)[o + 1..o + 1 + |gs[g].moons|] == gs[g].moons
  {
    var all := FlattenGroups(gs);
    var before := FlattenGroups(gs[..g]);
    var o, m := |before|, |gs[g].moons|;
    var upTo := gs[..g + 1];
    assert upTo[..g] == gs[..g];
    var front := FlattenGroups(upTo);
    assert front == before + [gs[g].planet] + gs[g].moons;
    FlattenGroupsPrefix(gs, g + 1);
    assert all[..|front|] == front;
    assert all[o] == front[o] == gs[g].planet;
    assert all[o + 1..o + 1 + m] == front[o + 1..o + 1 + m];
  }

  /**
   * The append order: the star, then every planet directly followed by its
   * own moons, then the asteroids after the last planet's moons; the list
   * grows by 1 + planets + all moons + asteroids.
   */
  lemma SystemLayout(sys: System)
    ensures |Flatten(sys)| == 1 + |sys.groups| + MoonTotal(sys.groups) + |sys.asteroids|
    ensures Flatten(sys)[0] == sys.star
    ensures forall g :: 0 <= g < |sys.groups| ==>
      var f, o := Flatten(sys), 1 + |FlattenGroups(sys.groups[..g])|;
      && o + 1 + |sys.groups[g].moons| <= |f| - |sys.asteroids|
      && f[o] == sys.groups[g].planet
      && f[o + 1..o + 1 + |sys.groups[g].moons|] == sys.groups[g].moons
    ensures Flatten(sys)[|Flatten(sys)| - |sys.asteroids|..] == sys.asteroids
  {
    var f, fg := Flatten(sys), FlattenGroups(sys.groups);
    FlattenGroupsLength(sys.groups);
    assert |f| == 1 + |fg| + |sys.asteroids|;
    forall g | 0 <= g < |sys.groups|
      ensures var o := 1 + |FlattenGroups(sys.groups[..g])|;
        && o + 1 + |sys.groups[g].moons| <= |f| - |sys.asteroids|
        && f[o] == sys.groups[g].planet
        && f[o + 1..o + 1 + |sys.groups[g].moons|] == sys.groups[g].moons
    {
      SystemGroupLayout(sys, g);
    }
    assert f[1 + |fg|..] == sys.asteroids;
  }

  lemma SystemGroupLayout(sys: System, g: nat)
    requires g < |sys.groups|
    ensures var f, o := Flatten(sys), 1 + |FlattenGroups(sys.groups[..g])|;
      && o + 1 + |sys.groups[g].moons| <= |f| - |sys.asteroids|
      && f[o] == sys.groups[g].planet
      && f[o + 1..o + 1 + |sys.groups[g].moons|] == sys.groups[g].moons
  {
    GroupLayout(sys.groups, g);
    var o, m := |FlattenGroups(sys.groups[..g])|, |sys.groups[g].moons|;
    MiddleSlice([sys.star], FlattenGroups(sys.groups), sys.asteroids, o, o + 1 + m);
    MiddleSlice([sys.star], FlattenGroups(sys.groups), sys.asteroids, o + 1, o + 1 + m);
  }

  /** Each planet group uses 9 to 41 draws. */
  lemma {:induction false} GroupsDraws(s: Stream, at: nat, n: nat)
    requires ValidStream(s)
    ensures at + 9 * n <= GroupsEnd(s, at, n) <= at + 41 * n
  {
    if n > 0 {
      GroupsDraws(s, at, n - 1);
      var e := GroupsEnd(s, at, n - 1);
      assert GroupsEnd(s, at, n) == e + 9 + 8 * NumMoons(s(e + PlanetDraws));
    }
  }

  /** Each planet group has at most 4 moons. */
  lemma {:induction false} GroupsMoonTotal(s: Stream, at: nat, n: nat)
    requires ValidStream(s)
    ensures MoonTotal(GroupsAt(s, at, n)) <= 4 * n
  {
    if n > 0 {
      GroupsMoonTotal(s, at, n - 1);
      var gs := GroupsAt(s, at, n);
      assert gs[..n - 1] == GroupsAt(s, at, n - 1);
      assert |gs[n - 1].moons| < 5;
    }
  }

  /** One generation consumes between 363 and 1107 draws. */
  lemma SystemDraws(s: Stream, at: nat)
    requires ValidStream(s)
    ensures at + 363 <= SystemEnd(s, at) <= at + MaxDraws
  {
    GroupsDraws(s, at + StarDraws + 1, NumPlanets(s(at + StarDraws)));
  }
}
