/**
 * aircraftlib/database.py: the `aircraft_vector` table and
 * `Database.add_aircraft_vectors`, which drops raw field 12 (sensors) from a
 * copy of each entry, zips the rest onto the 16 declared columns, merges the
 * row by its primary key (icao, last_contact) and commits once at the end.
 */
module AircraftDatabase {
  import opened Wrappers
  import opened Builtins
  import opened StateVectors

  /** The columns of `AircraftVector`, in declaration order. */
  const Columns: seq<string> :=
    ["icao", "callsign", "origin_country", "time_position", "last_contact",
     "longitude", "latitude", "baro_altitude", "on_ground", "velocity",
     "true_track", "vertical_rate", "geo_altitude", "squawk", "spi",
     "position_source"]
  const ColumnCount: nat := 16
  /** Positions of the two primary-key columns among `Columns`. */
  const IcaoColumn: nat := 0
  const LastContactColumn: nat := 4

  /** The composite primary key of a stored row. */
  datatype Key = Key(icao: Value, lastContact: Value)

  /** `pop(12)` on a list of at most 12 elements raises IndexError. */
  datatype StoreError = PopIndexOutOfRange(entry: nat)

  /** The committed table: one row of 16 column values per key. */
  type Store = map<Key, seq<Value>>

  predicate WellFormed(store: Store) {
    forall k :: k in store ==> |store[k]| == ColumnCount
  }

  /** Whether `pop(12)` succeeds on a copy of the entry. */
  predicate Poppable(entry: RawVector) {
    |entry| > SensorsField
  }

  predicate AllPoppable(batch: seq<RawVector>) {
    forall i :: 0 <= i < |batch| ==> Poppable(batch[i])
  }

  /** `i` is the first entry of the batch on which `pop(12)` fails. */
  predicate IsFirstUnpoppable(batch: seq<RawVector>, i: nat) {
    i < |batch| && !Poppable(batch[i]) && AllPoppable(batch[..i])
  }

  /** The copied entry after `pop(12)`: field 12 is gone and later fields move down by one. */
  function DropSensors(entry: RawVector): (r: seq<Value>)
    requires Poppable(entry)
    ensures |r| == |entry| - 1
    ensures forall i :: 0 <= i < SensorsField ==> r[i] == entry[i]
    ensures forall i :: SensorsField <= i < |r| ==> r[i] == entry[i + 1]
  {
    entry[..SensorsField] + entry[SensorsField + 1..]
  }

  /**
   * The keyword arguments `dict(zip(columns, new_entry))` hands to the
   * `AircraftVector` constructor: values for the first columns only, as many
   * as both sequences have.
   */
  function Assignment(entry: RawVector): (a: seq<Value>)
    requires Poppable(entry)
    ensures |a| == Min(ColumnCount, |entry| - 1)
    ensures SensorsField <= |a| <= ColumnCount
    ensures forall c :: 0 <= c < |a| ==> a[c] == (if c < SensorsField then entry[c] else entry[c + 1])
  {
    var newEntry := DropSensors(entry);
    newEntry[..Min(ColumnCount, |newEntry|)]
  }

  /** The primary key of the row built from an entry. */
  function EntryKey(entry: RawVector): (k: Key)
    requires Poppable(entry)
    ensures k == Key(entry[IcaoField], entry[LastContactField])
  {
    var a := Assignment(entry);
    Key(a[IcaoColumn], a[LastContactColumn])
  }

  /**
   * `session.merge` of an object built from the assignment `a`: a new row
   * takes the assigned values and NULL in the columns `a` does not set; an
   * existing row is overwritten in the assigned columns and keeps the others.
   */
  function Apply(existing: Option<seq<Value>>, a: seq<Value>): (row: seq<Value>)
    requires |a| <= ColumnCount
    requires existing.Some? ==> |existing.value| == ColumnCount
    ensures |row| == ColumnCount
    ensures forall c :: 0 <= c < |a| ==> row[c] == a[c]
    ensures forall c :: |a| <= c < ColumnCount ==>
              row[c] == (if existing.Some? then existing.value[c] else Null)
  {
    a + (if existing.Some? then existing.value[|a|..] else seq(ColumnCount - |a|, _ => Null))
  }

  /** The store after merging one entry. */
  function MergeEntry(store: Store, entry: RawVector): (s: Store)
    requires WellFormed(store) && Poppable(entry)
    ensures WellFormed(s)
  {
    var k := EntryKey(entry);
    store[k := Apply(if k in store then Some(store[k]) else None, Assignment(entry))]
  }

  /** The store after merging every entry of the batch, first to last. */
  function Merged(store: Store, batch: seq<RawVector>): (s: Store)
    requires WellFormed(store) && AllPoppable(batch)
    ensures WellFormed(s)
    decreases |batch|
  {
    if batch == [] then store
    else MergeEntry(Merged(store, batch[..|batch| - 1]), batch[|batch| - 1])
  }

  /** Some entry of the batch has key `k`. */
  ghost predicate KeyOccurs(batch: seq<RawVector>, k: Key)
    requires AllPoppable(batch)
  {
    exists i :: 0 <= i < |batch| && EntryKey(batch[i]) == k
  }

  /** The value that the last entry with key `k` assigning column `c` gives it, if any. */
  ghost function Writer(batch: seq<RawVector>, k: Key, c: nat): (w: Option<Value>)
    requires AllPoppable(batch)
    ensures w.Some? ==> KeyOccurs(batch, k)
    decreases |batch|
  {
    if batch == [] then None
    else
      var e := batch[|batch| - 1];
      if EntryKey(e) == k && c < |Assignment(e)| then
        Some(Assignment(e)[c])
      else
        var w := Writer(batch[..|batch| - 1], k, c);
        assert w.Some? ==> KeyOccurs(batch, k) by {
          if w.Some? {
            var i :| 0 <= i < |batch| - 1 && EntryKey(batch[..|batch| - 1][i]) == k;
            assert batch[..|batch| - 1][i] == batch[i];
          }
        }
        w
  }

  /**
   * Cell-by-cell description of a merged store: the keys are the old keys
   * plus the batch's keys, and each cell holds the value of the last write
   * to it, or else its old value, or else NULL.
   */
  lemma {:induction false} MergedCell(store: Store, batch: seq<RawVector>, k: Key, c: nat)
    requires WellFormed(store) && AllPoppable(batch) && c < ColumnCount
    ensures k in Merged(store, batch) <==> k in store || KeyOccurs(batch, k)
    ensures k in Merged(store, batch) ==>
              Merged(store, batch)[k][c] ==
                match Writer(batch, k, c)
                case Some(v) => v
                case None => if k in store then store[k][c] else Null
    decreases |batch|
  {
    if batch != [] {
      var front, e := batch[..|batch| - 1], batch[|batch| - 1];
      assert AllPoppable(front);
      MergedCell(store, front, k, c);
      assert KeyOccurs(batch, k) <==> KeyOccurs(front, k) || EntryKey(e) == k by {
        if KeyOccurs(front, k) {
          var i :| 0 <= i < |front| && EntryKey(front[i]) == k;
          assert front[i] == batch[i];
        }
        if KeyOccurs(batch, k) && EntryKey(e) != k {
          var i :| 0 <= i < |batch| && EntryKey(batch[i]) == k;
          assert i < |front| && front[i] == batch[i];
        }
      }
    }
  }

  /**
   * Last write wins: the row stored under a key of the batch carries, in the
   * columns it assigns, the values of the last entry with that key; a full
   * 17-field entry determines the whole row.
   */
  lemma {:induction false} LastWriteWins(store: Store, batch: seq<RawVector>, j: nat)
    requires WellFormed(store) && AllPoppable(batch)
    requires j < |batch|
    requires forall i :: j < i < |batch| ==> EntryKey(batch[i]) != EntryKey(batch[j])
    ensures EntryKey(batch[j]) in Merged(store, batch)
    ensures Merged(store, batch)[EntryKey(batch[j])][..|Assignment(batch[j])|] == Assignment(batch[j])
    ensures |batch[j]| >= RawFieldCount ==>
              Merged(store, batch)[EntryKey(batch[j])] == Assignment(batch[j])
    decreases |batch|
  {
    var front := batch[..|batch| - 1];
    if j < |batch| - 1 {
      assert AllPoppable(front);
      assert front[j] == batch[j];
      forall i | j < i < |front| ensures EntryKey(front[i]) != EntryKey(front[j]) {
        assert front[i] == batch[i];
      }
      LastWriteWins(store, front, j);
    }
  }

  /** Rows whose key no entry of the batch carries are left as they were. */
  lemma {:induction false} MergeLeavesOtherKeys(store: Store, batch: seq<RawVector>, k: Key)
    requires WellFormed(store) && AllPoppable(batch)
    requires !KeyOccurs(batch, k)
    ensures k in Merged(store, batch) <==> k in store
    ensures k in store ==> Merged(store, batch)[k] == store[k]
    decreases |batch|
  {
    if batch != [] {
      var front := batch[..|batch| - 1];
      assert AllPoppable(front);
      assert EntryKey(batch[|batch| - 1]) != k;
      forall i | 0 <= i < |front| ensures EntryKey(front[i]) != k {
        assert front[i] == batch[i];
      }
      MergeLeavesOtherKeys(store, front, k);
    }
  }

  /** Applying the same batch twice leaves the store as applying it once. */
  lemma MergeIdempotent(store: Store, batch: seq<RawVector>)
    requires WellFormed(store) && AllPoppable(batch)
    ensures Merged(Merged(store, batch), batch) == Merged(store, batch)
  {
    var once := Merged(store, batch);
    var twice := Merged(once, batch);
    forall k | k in twice || k in once
      ensures k in twice && k in once && twice[k] == once[k]
    {
      MergedCell(once, batch, k, 0);
      MergedCell(store, batch, k, 0);
      forall c | 0 <= c < ColumnCount ensures twice[k][c] == once[k][c] {
        MergedCell(once, batch, k, c);
        MergedCell(store, batch, k, c);
      }
    }
    assert twice.Keys == once.Keys;
  }

  /** The aircraft-vector table, owned by the database object. */
  class Database {
    var rows: Store

    ghost predicate Valid()
      reads this
    {
      WellFormed(rows)
    }

    /** A fresh store; the sqlite file `Database()` opens may already hold rows, which is not modelled. */
    constructor ()
      ensures Valid() && rows == map[]
    {
      rows := map[];
    }

    /**
     * Merges every entry into the session, then commits. An entry too short
     * for `pop(12)` raises before the commit, so nothing of the batch is
     * stored.
     */
    method AddAircraftVectors(vectors: seq<RawVector>) returns (r: Outcome<StoreError>)
      requires Valid()
      modifies this
      ensures Valid()
      ensures AllPoppable(vectors) ==> r == Pass && rows == Merged(old(rows), vectors)
      ensures !AllPoppable(vectors) ==>
                rows == old(rows) && r.Fail? && IsFirstUnpoppable(vectors, r.error.entry)
    {
      var session := rows;
      var i := 0;
      while i < |vectors|
        invariant 0 <= i <= |vectors|
        invariant AllPoppable(vectors[..i])
        invariant WellFormed(session)
        invariant session == Merged(rows, vectors[..i])
      {
        var entry := vectors[i];
        if |entry| <= SensorsField {
          return Fail(PopIndexOutOfRange(i));
        }
        var newEntry := entry[..SensorsField] + entry[SensorsField + 1..];
        var vec := newEntry[..Min(ColumnCount, |newEntry|)];
        var key := Key(vec[IcaoColumn], vec[LastContactColumn]);
        session := session[key := Apply(if key in session then Some(session[key]) else None, vec)];
        assert vectors[..i + 1][..i] == vectors[..i];
        i := i + 1;
      }
      assert vectors[..i] == vectors;
      rows := session;
      r := Pass;
    }
  }
}
