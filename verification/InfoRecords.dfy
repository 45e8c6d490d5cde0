/** QEngineInfoRec.cpp, GridGenerationsInfoRec.cpp, BackendInfoRec.h and BackendInfoFilter.cpp: orders and filters. */
module InfoRecords {
  import opened Strings
  import opened SetIntersection
  import opened Merge
  import opened BackendInfo

  // ---------------------------------------------------------------- comparing

  datatype QEngineInfoRec = QEngineInfoRec(
    producer: string,
    aliases: seq<string>,
    refreshInterval: int,
    path: string,
    parameters: seq<string>,
    descriptions: seq<string>,
    levels: seq<int>,
    projection: string,
    originTime: int,
    minTime: int,
    maxTime: int,
    loadTime: int)

  datatype GridGenerationsInfoRec = GridGenerationsInfoRec(
    producer: string,
    geometryId: int,
    timesteps: int,
    analysisTime: int,
    minTime: int,
    maxTime: int,
    modificationTime: int,
    fmiParameter: seq<string>,
    parameterAliases: seq<string>)

  predicate QEngineLess(a: QEngineInfoRec, b: QEngineInfoRec) {
    if a.originTime != b.originTime then a.originTime < b.originTime
    else if a.path != b.path then StringLess(a.path, b.path)
    else if a.producer != b.producer then StringLess(a.producer, b.producer)
    else false
  }

  predicate GridLess(a: GridGenerationsInfoRec, b: GridGenerationsInfoRec) {
    if a.producer != b.producer then StringLess(a.producer, b.producer)
    else if a.geometryId != b.geometryId then a.geometryId < b.geometryId
    else if a.analysisTime != b.analysisTime then a.analysisTime < b.analysisTime
    else false
  }

  lemma QEngineOrder(a: QEngineInfoRec, b: QEngineInfoRec, c: QEngineInfoRec)
    ensures QEngineLess(a, b) ==> !QEngineLess(b, a)
    ensures QEngineLess(a, c) ==> QEngineLess(a, b) || QEngineLess(b, c)
    ensures Equiv(QEngineLess, a, b) <==> a.originTime == b.originTime && a.path == b.path && a.producer == b.producer
  {
    StringOrder(a.path, b.path, c.path);
    StringOrder(b.path, c.path, a.path);
    StringOrder(a.producer, b.producer, c.producer);
    StringOrder(b.producer, c.producer, a.producer);
  }

  lemma GridOrder(a: GridGenerationsInfoRec, b: GridGenerationsInfoRec, c: GridGenerationsInfoRec)
    ensures GridLess(a, b) ==> !GridLess(b, a)
    ensures GridLess(a, c) ==> GridLess(a, b) || GridLess(b, c)
    ensures Equiv(GridLess, a, b) <==>
            a.producer == b.producer && a.geometryId == b.geometryId && a.analysisTime == b.analysisTime
  {
    StringOrder(a.producer, b.producer, c.producer);
    StringOrder(b.producer, c.producer, a.producer);
  }

  /** Both orders may be given to std::sort and std::set_intersection. */
  lemma OrdersAreStrictWeak()
    ensures StrictWeakOrder(QEngineLess) && StrictWeakOrder(GridLess)
  {
    forall a, b | QEngineLess(a, b)
      ensures !QEngineLess(b, a)
    {
      QEngineOrder(a, b, a);
    }
    forall a, b, c | QEngineLess(a, c)
      ensures QEngineLess(a, b) || QEngineLess(b, c)
    {
      QEngineOrder(a, b, c);
    }
    forall a, b | GridLess(a, b)
      ensures !GridLess(b, a)
    {
      GridOrder(a, b, a);
    }
    forall a, b, c | GridLess(a, c)
      ensures GridLess(a, b) || GridLess(b, c)
    {
      GridOrder(a, b, c);
    }
  }

  const QENGINE_KIND := RecordKind(QEngineLess, (r: QEngineInfoRec) => r.producer, "Available querydata")
  const GRID_KIND := RecordKind(GridLess, (r: GridGenerationsInfoRec) => r.producer, "Grid generations information")

  /** Under every producer the newest querydata comes first, whatever its path; the path decides between equally old ones. */
  lemma NewestQueryDataFirst(records: Records<QEngineInfoRec>, p: string, i: nat, j: nat)
    requires WellFormed(QENGINE_KIND, records) && p in records && i < j < |records[p]|
    ensures
      var a, b := records[p][i], records[p][j];
      && a.producer == b.producer == p
      && (a.originTime > b.originTime || (a.originTime == b.originTime && !StringLess(a.path, b.path)))
  {
    assert records[p][i] in records[p] && records[p][j] in records[p];
    assert !Flip(QEngineLess)(records[p][j], records[p][i]);
    StringOrder(records[p][i].path, records[p][j].path, records[p][i].path);
  }

  /** Under every producer the greatest geometry comes first, and of each geometry the newest generation. */
  lemma NewestGenerationFirst(records: Records<GridGenerationsInfoRec>, p: string, i: nat, j: nat)
    requires WellFormed(GRID_KIND, records) && p in records && i < j < |records[p]|
    ensures
      var a, b := records[p][i], records[p][j];
      && a.producer == b.producer == p
      && (a.geometryId > b.geometryId || (a.geometryId == b.geometryId && a.analysisTime >= b.analysisTime))
  {
    assert records[p][i] in records[p] && records[p][j] in records[p];
    assert !Flip(GridLess)(records[p][j], records[p][i]);
  }

  /** What each order compares first, what next, and what last. */
  lemma Precedence(a: QEngineInfoRec, b: QEngineInfoRec, c: GridGenerationsInfoRec, d: GridGenerationsInfoRec)
    ensures QEngineLess(a, b) <==>
            || a.originTime < b.originTime
            || (a.originTime == b.originTime && StringLess(a.path, b.path))
            || (a.originTime == b.originTime && a.path == b.path && StringLess(a.producer, b.producer))
    ensures GridLess(c, d) <==>
            || StringLess(c.producer, d.producer)
            || (c.producer == d.producer && c.geometryId < d.geometryId)
            || (c.producer == d.producer && c.geometryId == d.geometryId && c.analysisTime < d.analysisTime)
  {
    StringOrder(a.path, b.path, a.path);
    StringOrder(a.producer, b.producer, a.producer);
    StringOrder(c.producer, d.producer, c.producer);
  }

  // ---------------------------------------------------------------- merging

  /** What merging responses about querydata keeps, and exactly when that is what is documented. */
  lemma QEngineMerge(rs: seq<Records<QEngineInfoRec>>)
    requires rs != [] && forall r :: r in rs ==> WellFormed(QENGINE_KIND, r)
    ensures forall p :: p in CommonProducers(rs) ==> LongestAgreement(QEngineLess, rs, p)
    ensures MergedRecords(QEngineLess, rs) == MergedRecords(Flip(QEngineLess), rs) <==>
            forall p :: p in CommonProducers(rs) ==> NothingMissed(QEngineLess, rs, p)
  {
    OrdersAreStrictWeak();
    forall p | p in CommonProducers(rs)
      ensures LongestAgreement(QEngineLess, rs, p)
    {
      MergeIsCommonPrefix(QENGINE_KIND, rs, p);
    }
    MergeMatchesDocumentation(QENGINE_KIND, rs);
  }

  /** The same for responses about grid generations. */
  lemma GridMerge(rs: seq<Records<GridGenerationsInfoRec>>)
    requires rs != [] && forall r :: r in rs ==> WellFormed(GRID_KIND, r)
    ensures forall p :: p in CommonProducers(rs) ==> LongestAgreement(GridLess, rs, p)
    ensures MergedRecords(GridLess, rs) == MergedRecords(Flip(GridLess), rs) <==>
            forall p :: p in CommonProducers(rs) ==> NothingMissed(GridLess, rs, p)
  {
    OrdersAreStrictWeak();
    forall p | p in CommonProducers(rs)
      ensures LongestAgreement(GridLess, rs, p)
    {
      MergeIsCommonPrefix(GRID_KIND, rs, p);
    }
    MergeMatchesDocumentation(GRID_KIND, rs);
  }

  function GridGeneration(producer: string, analysisTime: int): GridGenerationsInfoRec {
    GridGenerationsInfoRec(producer, 1, 1, analysisTime, 0, 0, 0, [], [])
  }

  function QueryData(producer: string, originTime: int): QEngineInfoRec {
    QEngineInfoRec(producer, [], 0, "", [], [], [], "", originTime, 0, 0, 0)
  }

  /**
   * Two backends with different newest generations, or different newest querydata, and one they share:
   * by the documentation the shared one is kept, but nothing is.
   */
  lemma SharedGenerationIsLost(producer: string, a: int, b: int, shared: int)
    requires shared < a && shared < b && a != b
    ensures
      var rs := [map[producer := [GridGeneration(producer, a), GridGeneration(producer, shared)]],
                 map[producer := [GridGeneration(producer, b), GridGeneration(producer, shared)]]];
      && (forall r :: r in rs ==> WellFormed(GRID_KIND, r))
      && MergedRecords(GridLess, rs) == map[]
      && MergedRecords(Flip(GridLess), rs) == map[producer := [GridGeneration(producer, shared)]]
    ensures
      var rs := [map[producer := [QueryData(producer, a), QueryData(producer, shared)]],
                 map[producer := [QueryData(producer, b), QueryData(producer, shared)]]];
      && (forall r :: r in rs ==> WellFormed(QENGINE_KIND, r))
      && MergedRecords(QEngineLess, rs) == map[]
      && MergedRecords(Flip(QEngineLess), rs) == map[producer := [QueryData(producer, shared)]]
  {
    OrdersAreStrictWeak();
    SharedRecordIsLost(GRID_KIND, producer, GridGeneration(producer, a), GridGeneration(producer, b),
                       GridGeneration(producer, shared));
    SharedRecordIsLost(QENGINE_KIND, producer, QueryData(producer, a), QueryData(producer, b),
                       QueryData(producer, shared));
  }

  // ---------------------------------------------------------------- filtering

  ghost predicate InSome(param: string, lists: seq<seq<string>>) {
    exists l :: l in lists && param in l
  }

  /** Is the parameter in any of the lists? */
  function LookupParameter(param: string, lists: seq<seq<string>>): (r: bool)
    ensures r <==> InSome(param, lists)
  {
    lists != [] && (param in lists[0] || LookupParameter(param, lists[1..]))
  }

  function LookupAll(params: seq<string>, lists: seq<seq<string>>): (r: bool)
    ensures r <==> forall p :: p in params ==> InSome(p, lists)
  {
    params == [] || (LookupParameter(params[0], lists) && LookupAll(params[1..], lists))
  }

  function LookupAny(params: seq<string>, lists: seq<seq<string>>): (r: bool)
    ensures r <==> exists p :: p in params && InSome(p, lists)
  {
    params != [] && (LookupParameter(params[0], lists) || LookupAny(params[1..], lists))
  }

  /** lookup_parameters: no lists give false, no parameters true. */
  function LookupParameters(params: seq<string>, all: bool, lists: seq<seq<string>>): bool {
    lists != [] && (params == [] || if all then LookupAll(params, lists) else LookupAny(params, lists))
  }

  datatype BackendInfoFilter = BackendInfoFilter(producer: Option<string>, parameters: seq<string>, all: bool)

  predicate Accepts(f: BackendInfoFilter, producer: string, lists: seq<seq<string>>) {
    (f.producer.Some? ==> producer == f.producer.value) && LookupParameters(f.parameters, f.all, lists)
  }

  predicate AcceptsQEngine(f: BackendInfoFilter, r: QEngineInfoRec) {
    Accepts(f, r.producer, [r.parameters])
  }

  predicate AcceptsGrid(f: BackendInfoFilter, r: GridGenerationsInfoRec) {
    Accepts(f, r.producer, [r.fmiParameter, r.parameterAliases])
  }

  /** A record passes by producer, and by parameters: all of them, or any, found in one list or another. */
  lemma FilterMeaning(f: BackendInfoFilter, producer: string, lists: seq<seq<string>>)
    requires lists != []
    ensures Accepts(f, producer, lists) <==>
            && (f.producer.None? || producer == f.producer.value)
            && (f.parameters == []
                || (f.all && forall p :: p in f.parameters ==> InSome(p, lists))
                || (!f.all && exists p :: p in f.parameters && InSome(p, lists)))
  {
  }

  lemma QEngineFilterMeaning(f: BackendInfoFilter, r: QEngineInfoRec)
    ensures AcceptsQEngine(f, r) <==>
            && (f.producer.None? || r.producer == f.producer.value)
            && (f.parameters == []
                || (f.all && forall p :: p in f.parameters ==> p in r.parameters)
                || (!f.all && exists p :: p in f.parameters && p in r.parameters))
  {
  }

  /** A grid passes by producer and by parameters, each of which may match either of the grid's two lists. */
  lemma GridFilterMeaning(f: BackendInfoFilter, r: GridGenerationsInfoRec)
    ensures AcceptsGrid(f, r) <==>
            && (f.producer.None? || r.producer == f.producer.value)
            && (f.parameters == []
                || (f.all && forall p :: p in f.parameters ==> p in r.fmiParameter || p in r.parameterAliases)
                || (!f.all && exists p :: p in f.parameters && (p in r.fmiParameter || p in r.parameterAliases)))
  {
  }
}
