/** Storage accounting of uploads: what is charged to a user against what is recorded in the file table. */
module IpfsStorage {
  import IpfsQuota

  /** One line of the node's answer to an upload. */
  datatype FileInfo = FileInfo(name: string, hash: string, size: nat)

  /** An upload with the list the node answered. */
  datatype Upload = Upload(user: nat, wrap: bool, list: seq<FileInfo>)

  function ListSize(list: seq<FileInfo>): nat {
    if list == [] then 0 else list[0].size + ListSize(list[1..])
  }

  /** Sizes fit 64 bits together, and the list of a wrapped upload ends with the wrapper. */
  type Sized = u: Upload | (u.wrap ==> u.list != []) && ListSize(u.list) < TWO64 witness Upload(0, false, [])

  /** A row of the file table; `wrapDirCid` is empty unless the upload was wrapped in a directory. */
  datatype Row = Row(user: nat, cid: string, size: nat, wrapDirCid: string)

  const TWO64 := IpfsQuota.TWO64

  predicate Recorded(rows: seq<Row>, user: nat, cid: string) {
    exists r | r in rows :: r.user == user && r.cid == cid
  }

  /** The wrapper directory of an upload is the row wrapped by itself. */
  predicate IsWrapper(r: Row) {
    r.cid == r.wrapDirCid
  }

  /** Sizes of a user's recorded files, wrapper directories aside. */
  function TableSum(rows: seq<Row>, user: nat): nat {
    if rows == [] then 0 else
      (if rows[0].user == user && !IsWrapper(rows[0]) then rows[0].size else 0) + TableSum(rows[1..], user)
  }

  function FirstOrCreate(rows: seq<Row>, row: Row): seq<Row> {
    if Recorded(rows, row.user, row.cid) then rows else rows + [row]
  }

  function RecordAll(rows: seq<Row>, files: seq<Row>): seq<Row>
    decreases files
  {
    if files == [] then rows else RecordAll(FirstOrCreate(rows, files[0]), files[1..])
  }

  /** The rows an upload asks for. */
  function RowsOf(user: nat, wrap: bool, list: seq<FileInfo>): (rows: seq<Row>)
    requires wrap ==> list != []
    ensures |rows| == |list|
    ensures forall i | 0 <= i < |list| :: rows[i].cid == list[i].hash && rows[i].size == list[i].size && rows[i].user == user
  {
    var dir := if wrap then list[|list| - 1].hash else "";
    seq(|list|, i requires 0 <= i < |list| => Row(user, list[i].hash, list[i].size, dir))
  }

  /** Sizes of the listed files the table does not have yet. */
  function NewSize(rows: seq<Row>, files: seq<Row>): nat {
    if files == [] then 0 else
      (if Recorded(rows, files[0].user, files[0].cid) then 0 else files[0].size) + NewSize(rows, files[1..])
  }

  function DirSize(wrap: bool, list: seq<FileInfo>): nat
    requires wrap ==> list != []
  {
    if wrap then list[|list| - 1].size else 0
  }

  /** What `Add` charges for so much that is new, in unsigned 64-bit arithmetic. */
  function Net(size: nat, dir: nat): nat {
    var added := size % TWO64;
    if added > 0 then (added - dir) % TWO64 else 0
  }

  class Service {
    var rows: seq<Row>
    var totals: map<nat, nat>

    constructor ()
      ensures rows == [] && totals == map[]
    {
      rows, totals := [], map[];
    }

    method SelectUserFileID(user: nat, cid: string) returns (id: nat)
      ensures id == 0 <==> !Recorded(rows, user, cid)
    {
      for i := 0 to |rows|
        invariant forall j | 0 <= j < i :: !(rows[j].user == user && rows[j].cid == cid)
      {
        if rows[i].user == user && rows[i].cid == cid {
          return i + 1;
        }
      }
      return 0;
    }

    method BuildRows(user: nat, wrap: bool, list: seq<FileInfo>) returns (dbFiles: seq<Row>)
      requires wrap ==> list != []
      ensures dbFiles == RowsOf(user, wrap, list)
    {
      dbFiles := [];
      var dir := if wrap then list[|list| - 1].hash else "";
      for i := 0 to |list|
        invariant dbFiles == RowsOf(user, wrap, list)[..i]
      {
        dbFiles := dbFiles + [Row(user, list[i].hash, list[i].size, dir)];
      }
    }

    /** The sizes of the files that are not recorded yet, in unsigned 64-bit arithmetic. */
    method SumNew(dbFiles: seq<Row>) returns (addStorage: nat)
      ensures addStorage == NewSize(rows, dbFiles) % TWO64
    {
      addStorage := 0;
      for i := 0 to |dbFiles|
        invariant addStorage < TWO64
        invariant (addStorage + NewSize(rows, dbFiles[i..])) % TWO64 == NewSize(rows, dbFiles) % TWO64
      {
        assert dbFiles[i..][1..] == dbFiles[i + 1..];
        var id := SelectUserFileID(dbFiles[i].user, dbFiles[i].cid);
        if id == 0 {
          ModAbsorbs(addStorage + dbFiles[i].size, NewSize(rows, dbFiles[i + 1..]));
          addStorage := (addStorage + dbFiles[i].size) % TWO64;
        }
      }
    }

    /** An upload: charge what is new, less the wrapper directory, then record everything. */
    method Add(user: nat, wrap: bool, list: seq<FileInfo>)
      requires wrap ==> list != []
      modifies this
      ensures State(rows, totals) == Step(State(old(rows), old(totals)), Upload(user, wrap, list))
    {
      var dirSize := if wrap then list[|list| - 1].size else 0;
      var dbFiles := BuildRows(user, wrap, list);
      var addStorage := SumNew(dbFiles);
      if addStorage > 0 {
        addStorage := (addStorage - dirSize) % TWO64;
        totals := totals[user := Total(totals, user) + addStorage];
      }
      rows := RecordAll(rows, dbFiles);
    }
  }

  lemma ModAbsorbs(a: nat, b: nat)
    ensures (a % TWO64 + b) % TWO64 == (a + b) % TWO64
  {
  }

  function Total(totals: map<nat, nat>, user: nat): nat {
    if user in totals then totals[user] else 0
  }

  // ---- What one upload charges against what it adds to the table ----

  /** The ids a user has in the table. */
  function Cids(rows: seq<Row>, user: nat): set<string> {
    set r | r in rows && r.user == user :: r.cid
  }

  /** What an upload's lookups find if the table does not change meanwhile. */
  function Lookups(rows: seq<Row>, files: seq<Row>): (found: seq<bool>)
    ensures |found| == |files|
    ensures forall i | 0 <= i < |files| :: found[i] == Recorded(rows, files[i].user, files[i].cid)
  {
    seq(|files|, i requires 0 <= i < |files| => Recorded(rows, files[i].user, files[i].cid))
  }

  /** Sizes of the files looked up so far and not found. */
  function Unfound(found: seq<bool>, files: seq<Row>): nat
    decreases files
  {
    if found == [] || files == [] then 0 else (if found[0] then 0 else files[0].size) + Unfound(found[1..], files[1..])
  }

  /** Of those, the sizes that recording adds nothing for: wrapper directories, and files whose id is
      present by then, whether another upload recorded it or an earlier line of the same list. */
  function Lost(present: set<string>, found: seq<bool>, files: seq<Row>): nat
    decreases files
  {
    if found == [] || files == [] then 0 else
      var f := files[0];
      (if !found[0] && (f.cid in present || IsWrapper(f)) then f.size else 0)
      + Lost(present + {f.cid}, found[1..], files[1..])
  }

  lemma {:induction false} NewIsUnfound(rows: seq<Row>, files: seq<Row>)
    ensures NewSize(rows, files) == Unfound(Lookups(rows, files), files)
  {
    if files != [] {
      NewIsUnfound(rows, files[1..]);
      assert Lookups(rows, files)[1..] == Lookups(rows, files[1..]);
    }
  }

  lemma {:induction false} LostAtMost(present: set<string>, found: seq<bool>, files: seq<Row>)
    ensures Lost(present, found, files) <= Unfound(found, files)
    decreases files
  {
    if found != [] && files != [] {
      LostAtMost(present + {files[0].cid}, found[1..], files[1..]);
    }
  }

  lemma {:induction false} TableSumAppend(rows: seq<Row>, r: Row, user: nat)
    ensures TableSum(rows + [r], user) == TableSum(rows, user) + (if r.user == user && !IsWrapper(r) then r.size else 0)
  {
    if rows == [] {
      assert rows + [r] == [r] && [r][1..] == [];
    } else {
      assert (rows + [r])[1..] == rows[1..] + [r];
      TableSumAppend(rows[1..], r, user);
    }
  }

  lemma RecordOne(rows: seq<Row>, f: Row, user: nat)
    ensures Cids(FirstOrCreate(rows, f), user) == Cids(rows, user) + (if f.user == user then {f.cid} else {})
    ensures TableSum(FirstOrCreate(rows, f), user) == TableSum(rows, user) +
            (if f.user != user || f.cid in Cids(rows, user) || IsWrapper(f) then 0 else f.size)
  {
    TableSumAppend(rows, f, user);
    assert f in rows + [f] && forall r | r in rows + [f] :: r in rows || r == f;
  }

  /** Recording accounts for everything the lookups did not find, whatever the list and whoever else
      recorded files between an upload's lookups and its recording. */
  lemma {:induction false} Accounting(rows: seq<Row>, found: seq<bool>, files: seq<Row>, user: nat)
    requires |found| == |files| && forall f | f in files :: f.user == user
    requires forall i | 0 <= i < |files| && found[i] :: files[i].cid in Cids(rows, user)
    ensures TableSum(RecordAll(rows, files), user) + Lost(Cids(rows, user), found, files)
            == TableSum(rows, user) + Unfound(found, files)
    decreases files
  {
    if files != [] {
      var f, rest := files[0], files[1..];
      assert f in files && forall g | g in rest :: g in files;
      RecordOne(rows, f, user);
      hide TableSum, Cids, FirstOrCreate;
      Accounting(FirstOrCreate(rows, f), found[1..], rest, user);
    }
  }

  /** Other users' rows do not count. */
  lemma {:induction false} OtherUsers(rows: seq<Row>, files: seq<Row>, user: nat)
    requires forall f | f in files :: f.user != user
    ensures TableSum(RecordAll(rows, files), user) == TableSum(rows, user)
    decreases files
  {
    if files != [] {
      var f, rest := files[0], files[1..];
      assert f in files && forall g | g in rest :: g in files;
      RecordOne(rows, f, user);
      OtherUsers(FirstOrCreate(rows, f), rest, user);
    }
  }

  /** By how much an upload charges more than it records; the subtraction of the wrapper's size wraps
      around if less than that is new. */
  function Drift(unfound: nat, lost: nat, dir: nat): int {
    if unfound == 0 then 0 else lost - dir + (if unfound < dir then TWO64 else 0)
  }

  lemma NetDrift(unfound: nat, lost: nat, dir: nat)
    requires lost <= unfound < TWO64 && dir < TWO64
    ensures Net(unfound, dir) == unfound - lost + Drift(unfound, lost, dir)
    ensures Drift(unfound, lost, dir) == 0 <==> unfound == 0 || lost == dir
    ensures Net(unfound, dir) > unfound <==> 0 < unfound < dir
  {
    if 0 < unfound < dir {
      assert (unfound - dir) % TWO64 == unfound - dir + TWO64;
    }
  }

  /** The upload charges what it records: nothing was new to its lookups, or what recording loses is
      exactly the wrapper's size that was subtracted. */
  predicate Exact(base: seq<Row>, rows: seq<Row>, u: Sized) {
    var files := RowsOf(u.user, u.wrap, u.list);
    NewSize(base, files) == 0 || Lost(Cids(rows, u.user), Lookups(base, files), files) == DirSize(u.wrap, u.list)
  }

  lemma {:induction false} SizesFit(list: seq<FileInfo>, found: seq<bool>, files: seq<Row>)
    requires |list| == |found| == |files| && forall i | 0 <= i < |list| :: files[i].size == list[i].size
    ensures Unfound(found, files) <= ListSize(list)
    ensures list != [] ==> list[|list| - 1].size <= ListSize(list)
  {
    if list != [] {
      SizesFit(list[1..], found[1..], files[1..]);
    }
  }

  /** `Accounting` for an upload that looked its files up in `base`. */
  lemma UploadAccounting(base: seq<Row>, rows: seq<Row>, u: Sized)
    requires Cids(base, u.user) <= Cids(rows, u.user)
    ensures var files := RowsOf(u.user, u.wrap, u.list);
            var lost := Lost(Cids(rows, u.user), Lookups(base, files), files);
            && TableSum(RecordAll(rows, files), u.user) + lost == TableSum(rows, u.user) + NewSize(base, files)
            && lost <= NewSize(base, files) < TWO64 && DirSize(u.wrap, u.list) < TWO64
  {
    var files := RowsOf(u.user, u.wrap, u.list);
    var found := Lookups(base, files);
    forall i | 0 <= i < |files| && found[i]
      ensures files[i].cid in Cids(rows, u.user)
    {
      assert files[i].cid in Cids(base, u.user);
    }
    hide TableSum, RecordAll, Cids, Recorded, NewSize, Unfound, Lost;
    NewIsUnfound(base, files);
    Accounting(rows, found, files, u.user);
    LostAtMost(Cids(rows, u.user), found, files);
    SizesFit(u.list, found, files);
  }

  /** An upload that looked its files up in `base` and records them in a table that has grown to `rows`
      charges exactly what it adds if and only if it is exact; and the subtraction wraps around if and
      only if something is new, but less than the wrapper's size. */
  lemma OverlapConservesIff(base: seq<Row>, rows: seq<Row>, u: Sized)
    requires Cids(base, u.user) <= Cids(rows, u.user)
    ensures var files, dir := RowsOf(u.user, u.wrap, u.list), DirSize(u.wrap, u.list);
            var charged := Net(NewSize(base, files), dir);
            && (TableSum(RecordAll(rows, files), u.user) == TableSum(rows, u.user) + charged <==> Exact(base, rows, u))
            && (charged > NewSize(base, files) <==> 0 < NewSize(base, files) < dir)
  {
    hide TableSum, RecordAll, Cids, Lookups, NewSize, Lost, RowsOf, DirSize, Net, Drift;
    var files := RowsOf(u.user, u.wrap, u.list);
    UploadAccounting(base, rows, u);
    NetDrift(NewSize(base, files), Lost(Cids(rows, u.user), Lookups(base, files), files), DirSize(u.wrap, u.list));
  }

  /** The same for an upload that nothing overlaps, whatever its list. */
  lemma AddConservesIff(rows: seq<Row>, u: Sized)
    ensures var files, dir := RowsOf(u.user, u.wrap, u.list), DirSize(u.wrap, u.list);
            var charged := Net(NewSize(rows, files), dir);
            && (TableSum(RecordAll(rows, files), u.user) == TableSum(rows, u.user) + charged <==> Exact(rows, rows, u))
            && (charged > NewSize(rows, files) ==> u.wrap && Recorded(rows, u.user, u.list[|u.list| - 1].hash))
  {
    OverlapConservesIff(rows, rows, u);
    if u.wrap && !Recorded(rows, u.user, u.list[|u.list| - 1].hash) {
      LastIsNew(rows, RowsOf(u.user, u.wrap, u.list));
    }
  }

  lemma {:induction false} LastIsNew(rows: seq<Row>, files: seq<Row>)
    requires files != [] && var last := files[|files| - 1]; !Recorded(rows, last.user, last.cid)
    ensures NewSize(rows, files) >= files[|files| - 1].size
  {
    if |files| > 1 {
      LastIsNew(rows, files[1..]);
    }
  }

  // ---- Lists without repetition ----

  /** Distinct, non-empty content ids. */
  predicate Proper(u: Sized) {
    && (forall i, j | 0 <= i < j < |u.list| :: u.list[i].hash != u.list[j].hash)
    && (forall f | f in u.list :: f.hash != "")
  }

  /** A wrapper directory that is already recorded while something listed is new. */
  predicate StaleWrapper(rows: seq<Row>, u: Sized) {
    && u.wrap && Recorded(rows, u.user, u.list[|u.list| - 1].hash)
    && DirSize(u.wrap, u.list) > 0 && NewSize(rows, RowsOf(u.user, u.wrap, u.list)) > 0
  }

  /** Without repetition only a new wrapper is lost. */
  lemma {:induction false} OnlyWrapperLost(present: set<string>, found: seq<bool>, files: seq<Row>)
    requires |found| == |files| && forall i | 0 <= i < |files| :: found[i] <==> files[i].cid in present
    requires forall i, j | 0 <= i < j < |files| :: files[i].cid != files[j].cid
    requires forall i | 0 <= i < |files| - 1 :: !IsWrapper(files[i])
    ensures Lost(present, found, files) ==
            if files != [] && IsWrapper(files[|files| - 1]) && !found[|files| - 1] then files[|files| - 1].size else 0
    decreases files
  {
    if files != [] {
      OnlyWrapperLost(present + {files[0].cid}, found[1..], files[1..]);
    }
  }

  /** A list without repetition is exact if and only if its wrapper is not stale. */
  lemma ProperExactIff(rows: seq<Row>, u: Sized)
    requires Proper(u)
    ensures Exact(rows, rows, u) <==> !StaleWrapper(rows, u)
  {
    var files := RowsOf(u.user, u.wrap, u.list);
    assert forall i | 0 <= i < |u.list| :: u.list[i] in u.list;
    OnlyWrapperLost(Cids(rows, u.user), Lookups(rows, files), files);
  }

  // ---- Sequences of uploads ----

  datatype State = State(rows: seq<Row>, totals: map<nat, nat>)

  /** One upload from start to finish. */
  function Step(st: State, u: Upload): State
    requires u.wrap ==> u.list != []
  {
    var files := RowsOf(u.user, u.wrap, u.list);
    var added := NewSize(st.rows, files);
    State(RecordAll(st.rows, files), Credit(st.totals, u.user, added, DirSize(u.wrap, u.list)))
  }

  /** A user's total is touched only if something is new. */
  function Credit(totals: map<nat, nat>, user: nat, added: nat, dir: nat): map<nat, nat> {
    if added % TWO64 > 0 then totals[user := Total(totals, user) + Net(added, dir)] else totals
  }

  predicate Conserved(st: State, user: nat) {
    Total(st.totals, user) == TableSum(st.rows, user)
  }

  /** At the start and after every upload. */
  predicate ConservedThroughout(st: State, uploads: seq<Sized>, user: nat)
    decreases uploads
  {
    Conserved(st, user) && (uploads != [] ==> ConservedThroughout(Step(st, uploads[0]), uploads[1..], user))
  }

  /** Every upload of the user is exact when its turn comes. */
  predicate AllExact(st: State, uploads: seq<Sized>, user: nat)
    decreases uploads
  {
    uploads == [] ||
    ((uploads[0].user == user ==> Exact(st.rows, st.rows, uploads[0]))
     && AllExact(Step(st, uploads[0]), uploads[1..], user))
  }

  lemma StepConserves(st: State, u: Sized, user: nat)
    requires Conserved(st, user)
    ensures Conserved(Step(st, u), user) <==> u.user != user || Exact(st.rows, st.rows, u)
  {
    if u.user == user {
      AddConservesIff(st.rows, u);
    } else {
      OtherUsers(st.rows, RowsOf(u.user, u.wrap, u.list), user);
    }
  }

  /** Over any sequence of uploads of any users, a user's total storage is at all times the sum of the
      sizes of the user's recorded files, wrapper directories aside, if and only if every upload of the
      user is exact. */
  lemma {:induction false} StorageConserved(st: State, uploads: seq<Sized>, user: nat)
    requires Conserved(st, user)
    ensures ConservedThroughout(st, uploads, user) <==> AllExact(st, uploads, user)
    decreases uploads
  {
    if uploads != [] {
      var u, rest := uploads[0], uploads[1..];
      StepConserves(st, u, user);
      if Conserved(Step(st, u), user) {
        hide Exact, Step, Conserved;
        StorageConserved(Step(st, u), rest, user);
      }
    }
  }

  // ---- Overlapping uploads ----

  datatype Phase = Looking | Charged | Done

  /** An upload on its way, with what its lookups have found so far. */
  datatype Flight = Flight(upload: Sized, found: seq<bool>, phase: Phase)

  datatype World = World(rows: seq<Row>, totals: map<nat, nat>, flights: seq<Flight>)

  datatype Event = Begin(upload: Sized) | Look(i: nat) | Charge(i: nat) | Record(i: nat)

  function FilesOf(u: Sized): seq<Row> {
    RowsOf(u.user, u.wrap, u.list)
  }

  predicate LookedUp(f: Flight) {
    |f.found| >= |f.upload.list|
  }

  predicate Enabled(w: World, e: Event) {
    match e
    case Begin(_) => true
    case Look(i) => i < |w.flights| && w.flights[i].phase == Looking && !LookedUp(w.flights[i])
    case Charge(i) => i < |w.flights| && w.flights[i].phase == Looking && LookedUp(w.flights[i])
    case Record(i) => i < |w.flights| && w.flights[i].phase == Charged
  }

  function SizeOf(f: Flight): nat {
    Unfound(f.found, FilesOf(f.upload))
  }

  function LostOf(rows: seq<Row>, f: Flight): nat {
    Lost(Cids(rows, f.upload.user), f.found, FilesOf(f.upload))
  }

  function DirOf(f: Flight): nat {
    DirSize(f.upload.wrap, f.upload.list)
  }

  function Advance(w: World, e: Event): World
    requires Enabled(w, e)
  {
    match e
    case Begin(u) => w.(flights := w.flights + [Flight(u, [], Looking)])
    case Look(i) =>
      var f := w.flights[i];
      var hit := Recorded(w.rows, f.upload.user, f.upload.list[|f.found|].hash);
      w.(flights := w.flights[i := f.(found := f.found + [hit])])
    case Charge(i) =>
      var f := w.flights[i];
      w.(totals := Credit(w.totals, f.upload.user, SizeOf(f), DirOf(f)), flights := w.flights[i := f.(phase := Charged)])
    case Record(i) =>
      var f := w.flights[i];
      w.(rows := RecordAll(w.rows, FilesOf(f.upload)), flights := w.flights[i := f.(phase := Done)])
  }

  predicate Possible(w: World, events: seq<Event>)
    decreases events
  {
    events == [] || (Enabled(w, events[0]) && Possible(Advance(w, events[0]), events[1..]))
  }

  function Final(w: World, events: seq<Event>): World
    requires Possible(w, events)
    decreases events
  {
    if events == [] then w else Final(Advance(w, events[0]), events[1..])
  }

  /** What a user has been charged for uploads that are not recorded yet. */
  function Ahead(flights: seq<Flight>, user: nat): nat {
    if flights == [] then 0 else AheadBy(flights[0], user) + Ahead(flights[1..], user)
  }

  function AheadBy(f: Flight, user: nat): nat {
    if f.phase == Charged && f.upload.user == user then Net(SizeOf(f), DirOf(f)) else 0
  }

  /** What the uploads of a user that a run records charge too much, or too little. */
  function Drifts(w: World, events: seq<Event>, user: nat): int
    requires Possible(w, events)
    decreases events
  {
    if events == [] then 0 else DriftBy(w, events[0], user) + Drifts(Advance(w, events[0]), events[1..], user)
  }

  function DriftBy(w: World, e: Event, user: nat): int
    requires Enabled(w, e)
  {
    if e.Record? && w.flights[e.i].upload.user == user
    then Drift(SizeOf(w.flights[e.i]), LostOf(w.rows, w.flights[e.i]), DirOf(w.flights[e.i])) else 0
  }

  /** What was found is still there, and nothing is charged before all lookups are done. */
  predicate Good(rows: seq<Row>, f: Flight) {
    && |f.found| <= |f.upload.list| && (f.phase != Looking ==> LookedUp(f))
    && forall j | 0 <= j < |f.found| && f.found[j] :: f.upload.list[j].hash in Cids(rows, f.upload.user)
  }

  predicate AllGood(w: World) {
    forall i | 0 <= i < |w.flights| :: Good(w.rows, w.flights[i])
  }

  lemma {:induction false} CidsGrow(rows: seq<Row>, files: seq<Row>, user: nat)
    ensures Cids(rows, user) <= Cids(RecordAll(rows, files), user)
    decreases files
  {
    if files != [] {
      RecordOne(rows, files[0], user);
      CidsGrow(FirstOrCreate(rows, files[0]), files[1..], user);
    }
  }

  lemma GoodStep(w: World, e: Event)
    requires AllGood(w) && Enabled(w, e)
    ensures AllGood(Advance(w, e))
  {
    var w' := Advance(w, e);
    forall i | 0 <= i < |w'.flights|
      ensures Good(w'.rows, w'.flights[i])
    {
      if i < |w.flights| {
        if e.Record? {
          CidsGrow(w.rows, FilesOf(w.flights[e.i].upload), w.flights[i].upload.user);
        }
        assert Good(w.rows, w.flights[i]);
      }
    }
  }

  lemma {:induction false} AheadUpdate(flights: seq<Flight>, i: nat, f: Flight, user: nat)
    requires i < |flights|
    ensures Ahead(flights[i := f], user) == Ahead(flights, user) - AheadBy(flights[i], user) + AheadBy(f, user)
  {
    if i == 0 {
      assert flights[i := f][1..] == flights[1..];
    } else {
      assert flights[i := f][1..] == flights[1..][i - 1 := f];
      AheadUpdate(flights[1..], i - 1, f, user);
    }
  }

  lemma {:induction false} AheadAppend(flights: seq<Flight>, f: Flight, user: nat)
    ensures Ahead(flights + [f], user) == Ahead(flights, user) + AheadBy(f, user)
  {
    if flights == [] {
      assert flights + [f] == [f] && [f][1..] == [];
    } else {
      assert (flights + [f])[1..] == flights[1..] + [f];
      AheadAppend(flights[1..], f, user);
    }
  }

  /** A user's total, less what is charged ahead of the table and what is recorded in it. */
  function Balance(w: World, user: nat): int {
    Total(w.totals, user) - Ahead(w.flights, user) - TableSum(w.rows, user)
  }

  lemma RecordBalance(rows: seq<Row>, f: Flight, user: nat)
    requires Good(rows, f) && f.phase == Charged && f.upload.user == user
    ensures TableSum(RecordAll(rows, FilesOf(f.upload)), user) ==
            TableSum(rows, user) + Net(SizeOf(f), DirOf(f)) - Drift(SizeOf(f), LostOf(rows, f), DirOf(f))
  {
    var files := FilesOf(f.upload);
    Accounting(rows, f.found, files, user);
    LostAtMost(Cids(rows, user), f.found, files);
    SizesFit(f.upload.list, f.found, files);
    NetDrift(SizeOf(f), LostOf(rows, f), DirOf(f));
  }

  lemma BalanceStep(w: World, e: Event, user: nat)
    requires AllGood(w) && Enabled(w, e)
    ensures Balance(Advance(w, e), user) == Balance(w, user) + DriftBy(w, e, user)
  {
    hide TableSum, Ahead, Drift, Net, Unfound, Lost, Cids;
    match e {
      case Begin(u) => AheadAppend(w.flights, Flight(u, [], Looking), user);
      case Look(i) => AheadUpdate(w.flights, i, Advance(w, e).flights[i], user);
      case Charge(i) =>
        AheadUpdate(w.flights, i, Advance(w, e).flights[i], user);
        Unchanged(SizeOf(w.flights[i]), DirOf(w.flights[i]));
      case Record(i) =>
        var f := w.flights[i];
        AheadUpdate(w.flights, i, Advance(w, e).flights[i], user);
        if f.upload.user == user {
          RecordBalance(w.rows, f, user);
        } else {
          OtherUsers(w.rows, FilesOf(f.upload), user);
        }
    }
  }

  lemma Unchanged(added: nat, dir: nat)
    ensures added % TWO64 == 0 ==> Net(added, dir) == 0
  {
  }

  lemma {:induction false} BalanceRun(w: World, events: seq<Event>, user: nat)
    requires AllGood(w) && Possible(w, events)
    ensures AllGood(Final(w, events))
    ensures Balance(Final(w, events), user) == Balance(w, user) + Drifts(w, events, user)
    decreases events
  {
    if events != [] {
      hide AllGood, Advance, Balance, DriftBy;
      BalanceStep(w, events[0], user);
      GoodStep(w, events[0]);
      BalanceRun(Advance(w, events[0]), events[1..], user);
    }
  }

  /** No upload is between its charge and its recording. */
  predicate Settled(w: World) {
    forall f | f in w.flights :: f.phase != Charged
  }

  lemma {:induction false} NothingAhead(flights: seq<Flight>, user: nat)
    requires forall f | f in flights :: f.phase != Charged
    ensures Ahead(flights, user) == 0
  {
    if flights != [] {
      NothingAhead(flights[1..], user);
    }
  }

  const NEW_WORLD := World([], map[], [])

  /** However the lookups, charges and recordings of any uploads interleave: whenever no upload is between
      charging and recording, a user's total storage differs from the sum of the recorded files by exactly
      what the user's uploads drifted. */
  lemma OverlapBalance(events: seq<Event>, user: nat)
    requires Possible(NEW_WORLD, events) && Settled(Final(NEW_WORLD, events))
    ensures var w := Final(NEW_WORLD, events);
            Total(w.totals, user) == TableSum(w.rows, user) + Drifts(NEW_WORLD, events, user)
  {
    BalanceRun(NEW_WORLD, events, user);
    NothingAhead(Final(NEW_WORLD, events).flights, user);
  }

  /** And an upload does not drift if and only if nothing was new to its lookups, or recording loses the
      wrapper's size and no more. */
  lemma NoDriftIff(events: seq<Event>, i: nat)
    requires Possible(NEW_WORLD, events) && Enabled(Final(NEW_WORLD, events), Record(i))
    ensures var w := Final(NEW_WORLD, events);
            var f := w.flights[i];
            DriftBy(w, Record(i), f.upload.user) == 0 <==> SizeOf(f) == 0 || LostOf(w.rows, f) == DirOf(f)
  {
    var w := Final(NEW_WORLD, events);
    var f := w.flights[i];
    BalanceRun(NEW_WORLD, events, f.upload.user);
    LostAtMost(Cids(w.rows, f.upload.user), f.found, FilesOf(f.upload));
    SizesFit(f.upload.list, f.found, FilesOf(f.upload));
    NetDrift(SizeOf(f), LostOf(w.rows, f), DirOf(f));
  }

  function RestAlone(i: nat, lookups: nat): seq<Event> {
    if lookups == 0 then [Charge(i)] + ([Record(i)] + []) else [Look(i)] + RestAlone(i, lookups - 1)
  }

  lemma {:induction false} LooksAlone(w: World, i: nat, lookups: nat)
    requires i < |w.flights| && var f := w.flights[i];
             && f.phase == Looking && |f.found| + lookups == |f.upload.list|
             && f.found == Lookups(w.rows, FilesOf(f.upload))[..|f.found|]
    ensures Possible(w, RestAlone(i, lookups))
    ensures var end := Final(w, RestAlone(i, lookups));
            State(end.rows, end.totals) == Step(State(w.rows, w.totals), w.flights[i].upload)
    decreases lookups
  {
    var f := w.flights[i];
    if lookups == 0 {
      NewIsUnfound(w.rows, FilesOf(f.upload));
      assert f.found == Lookups(w.rows, FilesOf(f.upload));
      var charged := Advance(w, Charge(i));
      assert Final(charged, [Record(i)] + []) == Final(Advance(charged, Record(i)), []);
    } else {
      LooksAlone(Advance(w, Look(i)), i, lookups - 1);
    }
  }

  /** An upload that nothing overlaps is one `Step`. */
  lemma UploadAlone(w: World, u: Sized)
    ensures var run := [Begin(u)] + RestAlone(|w.flights|, |u.list|);
            && Possible(w, run)
            && var end := Final(w, run); State(end.rows, end.totals) == Step(State(w.rows, w.totals), u)
  {
    LooksAlone(Advance(w, Begin(u)), |w.flights|, |u.list|);
  }

  /** Repetition matters: a new file listed twice is charged twice and recorded once. */
  lemma DuplicateIsChargedTwice(rows: seq<Row>, f: FileInfo, user: nat)
    requires 0 < f.size && 2 * f.size < TWO64 && f.hash != "" && !Recorded(rows, user, f.hash)
    ensures var files := RowsOf(user, false, [f, f]);
            && Net(NewSize(rows, files), 0) == 2 * f.size
            && TableSum(RecordAll(rows, files), user) == TableSum(rows, user) + f.size
  {
    var r := Row(user, f.hash, f.size, "");
    var files, found := RowsOf(user, false, [f, f]), [false, false];
    assert files == [r, r] && files[1..] == [r] && [r][1..] == [] && found[1..] == [false];
    assert Lookups(rows, files) == found;
    NewIsUnfound(rows, files);
    Accounting(rows, found, files, user);
    assert Lost(Cids(rows, user) + {r.cid}, [false], [r]) == f.size;
    assert Unfound([false], [r]) == f.size;
  }

  predicate Leads(w: World, events: seq<Event>, end: World) {
    Possible(w, events) && Final(w, events) == end
  }

  lemma LeadsFirst(w: World, e: Event, next: World, rest: seq<Event>, end: World)
    requires Enabled(w, e) && Advance(w, e) == next && Leads(next, rest, end)
    ensures Leads(w, [e] + rest, end)
  {
  }

  /** Two uploads that look everything up before either records. */
  function Overlapping(u: Sized): seq<Event> {
    [Begin(u)] + ([Begin(u)] + ([Look(0)] + ([Look(1)] + Settling())))
  }

  function Settling(): seq<Event> {
    [Charge(0)] + ([Charge(1)] + ([Record(0)] + ([Record(1)] + [])))
  }

  /** A one-file upload: its only row, and what it comes to while that is new. */
  lemma OneFile(u: Sized, f: FileInfo)
    requires !u.wrap && u.list == [f] && f.hash != ""
    ensures var r := Row(u.user, f.hash, f.size, "");
            && f.size < TWO64 && FilesOf(u) == [r] && Unfound([false], [r]) == f.size
            && TableSum([r], u.user) == f.size && RecordAll([], [r]) == [r] && RecordAll([r], [r]) == [r]
  {
    var r := Row(u.user, f.hash, f.size, "");
    assert ListSize([f]) == f.size + ListSize([f][1..]);
    assert [r][1..] == [] && r in [r];
    assert TableSum([r], u.user) == f.size + TableSum([r][1..], u.user);
    assert RecordAll([], [r]) == RecordAll([r], []) && RecordAll([r], [r]) == RecordAll([r], []);
  }

  lemma OverlapSettles(u: Sized, r: Row)
    requires FilesOf(u) == [r] && !u.wrap && Unfound([false], [r]) == r.size && 0 < r.size < TWO64
    requires RecordAll([], [r]) == [r] && RecordAll([r], [r]) == [r]
    ensures var known, done := Flight(u, [false], Looking), Flight(u, [false], Done);
            |u.list| == 1 && Leads(World([], map[], [known, known]), Settling(), World([r], map[u.user := 2 * r.size], [done, done]))
  {
    hide RowsOf, RecordAll, Unfound;
    var known, paid, done := Flight(u, [false], Looking), Flight(u, [false], Charged), Flight(u, [false], Done);
    var totals := map[u.user := 2 * r.size];
    var w4, w5 := World([], map[], [known, known]), World([], map[u.user := r.size], [paid, known]);
    var w6, w7, w8 := World([], totals, [paid, paid]), World([r], totals, [done, paid]), World([r], totals, [done, done]);
    assert Leads(w8, [], w8) && |u.list| == |FilesOf(u)|;
    hide Leads;
    LeadsFirst(w7, Record(1), w8, [], w8);
    LeadsFirst(w6, Record(0), w7, [Record(1)] + [], w8);
    LeadsFirst(w5, Charge(1), w6, [Record(0)] + ([Record(1)] + []), w8);
    LeadsFirst(w4, Charge(0), w5, [Charge(1)] + ([Record(0)] + ([Record(1)] + [])), w8);
  }

  lemma OverlapLooks(u: Sized, r: Row)
    requires FilesOf(u) == [r] && !u.wrap && Unfound([false], [r]) == r.size && 0 < r.size < TWO64
    requires RecordAll([], [r]) == [r] && RecordAll([r], [r]) == [r]
    ensures var begun, done := Flight(u, [], Looking), Flight(u, [false], Done);
            Leads(World([], map[], [begun, begun]), [Look(0)] + ([Look(1)] + Settling()),
                  World([r], map[u.user := 2 * r.size], [done, done]))
  {
    hide RowsOf, RecordAll, Unfound;
    var begun, known, done := Flight(u, [], Looking), Flight(u, [false], Looking), Flight(u, [false], Done);
    var w2, w3, w4 := World([], map[], [begun, begun]), World([], map[], [known, begun]), World([], map[], [known, known]);
    var w8 := World([r], map[u.user := 2 * r.size], [done, done]);
    OverlapSettles(u, r);
    hide Leads;
    assert [] + [false] == [false];
    LeadsFirst(w3, Look(1), w4, Settling(), w8);
    LeadsFirst(w2, Look(0), w3, [Look(1)] + Settling(), w8);
  }

  /** And so does overlapping: two such uploads of one new file charge it twice and record it once. */
  lemma OverlapChargesTwice(u: Sized, f: FileInfo)
    requires !u.wrap && u.list == [f] && f.size > 0 && f.hash != ""
    ensures Possible(NEW_WORLD, Overlapping(u))
    ensures var end := Final(NEW_WORLD, Overlapping(u));
            Settled(end) && Total(end.totals, u.user) == 2 * f.size && TableSum(end.rows, u.user) == f.size
  {
    OneFile(u, f);
    hide RowsOf, RecordAll, Unfound, TableSum;
    var r := Row(u.user, f.hash, f.size, "");
    var begun, done := Flight(u, [], Looking), Flight(u, [false], Done);
    var w1, w2 := World([], map[], [begun]), World([], map[], [begun, begun]);
    var w8 := World([r], map[u.user := 2 * f.size], [done, done]);
    OverlapLooks(u, r);
    assert [begun] + [begun] == [begun, begun];
    LeadsFirst(w1, Begin(u), w2, [Look(0)] + ([Look(1)] + Settling()), w8);
    LeadsFirst(NEW_WORLD, Begin(u), w1, [Begin(u)] + ([Look(0)] + ([Look(1)] + Settling())), w8);
  }
}
