/** The replay example's synchronous scalar channel: `update` turns the first
    column of the parsed CSV rows into the sample table and a value range,
    and `process` replays that table cyclically, in contiguous chunks, up to
    the tick the host's clock has reached.  File reading and the host's clock
    are parameters: the parsed rows and the target tick. */
module Replay {
  import opened PropertyModel
  import Channels

  /** `std::numeric_limits<double>::max()`; `lowest()` is its negation. */
  const DoubleMax: real := 179769313486231570814527423731704356798070567525844996598917476803157260780028538760589558632766878171540458953514382464234321326889464182768467546703537516986049910576551282076245490090389328944075868508455133942304583236903222948165808559332123348274797826204144723168738177180919299881250404026184124858368.0

  /** `std::numeric_limits<uint64_t>::max()`. */
  const Uint64Max: uint64 := 0xFFFF_FFFF_FFFF_FFFF

  /** A finite double read from the file. */
  type Finite = x: real | -DoubleMax <= x <= DoubleMax

  /** An entry of `m_values`: a number, or the quiet NaN that stands for a
      row without a first column. */
  datatype Sample = Number(x: real) | QuietNaN

  /** One `addSamples` call: channel, first tick, and the samples sent. */
  datatype Chunk = Chunk(channel: uint32, tick: uint64, samples: seq<Sample>)

  // ---------------------------------------------------------------------
  // Specification of process
  // ---------------------------------------------------------------------

  /** The samples for the `n` ticks from `start`: the table, repeated. */
  function Cyclic(values: seq<Sample>, start: nat, n: nat): (r: seq<Sample>)
    requires |values| > 0
  {
    seq(n, i requires 0 <= i < n => values[(start + i) % |values|])
  }

  /** Everything the chunks send, in order. */
  function Concat(chunks: seq<Chunk>): seq<Sample> {
    if chunks == [] then [] else Concat(chunks[..|chunks| - 1]) + chunks[|chunks| - 1].samples
  }

  /** One `addSamples` call of `process`: on `channel`, non-empty, and a
      slice of the table that begins at its tick modulo the table's size. */
  ghost predicate ChunkOk(values: seq<Sample>, channel: uint32, c: Chunk) {
    && c.channel == channel
    && |c.samples| >= 1
    && |values| > 0
    && c.tick % |values| + |c.samples| <= |values|
    && c.samples == values[c.tick % |values| .. c.tick % |values| + |c.samples|]
  }

  /** The shape `process` gives its chunks: each one well formed, and each
      starting where the previous ones ended, the first at `start`. */
  ghost predicate WellChunked(values: seq<Sample>, channel: uint32, start: nat, chunks: seq<Chunk>) {
    forall i :: 0 <= i < |chunks| ==>
      ChunkOk(values, channel, chunks[i]) && chunks[i].tick == start + |Concat(chunks[..i])|
  }

  lemma ConcatAppend(chunks: seq<Chunk>, c: Chunk)
    ensures Concat(chunks + [c]) == Concat(chunks) + c.samples
  {
    assert (chunks + [c])[..|chunks|] == chunks;
  }

  /** Euclidean division is unique: a quotient and a remainder in range
      are the ones `/` and `%` give. */
  lemma {:induction false} DivModUnique(x: int, n: int, q: int, r: int)
    requires n > 0 && 0 <= r < n && x == q * n + r
    ensures x % n == r
  {
    var q', r' := x / n, x % n;
    assert x == q' * n + r';
    assert (q - q') * n == r' - r;
    if q - q' >= 1 {
      assert false;
    } else if q - q' <= -1 {
      assert false;
    }
  }

  lemma {:induction false} ModOffset(t: nat, n: nat, i: nat)
    requires n > 0 && t % n + i < n
    ensures (t + i) % n == t % n + i
  {
    var q := t / n;
    assert t == q * n + t % n;
    DivModUnique(t + i, n, q, t % n + i);
  }

  /** A slice of the table that starts at `t % |values|` holds the samples
      of the ticks from `t`. */
  lemma {:induction false} SliceIsCyclic(values: seq<Sample>, t: nat, sz: nat)
    requires |values| > 0 && t % |values| + sz <= |values|
    ensures values[t % |values| .. t % |values| + sz] == Cyclic(values, t, sz)
  {
    var slice := values[t % |values| .. t % |values| + sz];
    forall i | 0 <= i < sz
      ensures slice[i] == Cyclic(values, t, sz)[i]
    {
      ModOffset(t, |values|, i);
    }
  }

  /** The ticks from `start` split at any point. */
  lemma {:induction false} CyclicSplit(values: seq<Sample>, start: nat, a: nat, b: nat)
    requires |values| > 0
    ensures Cyclic(values, start, a) + Cyclic(values, start + a, b) == Cyclic(values, start, a + b)
  {
    var l := Cyclic(values, start, a) + Cyclic(values, start + a, b);
    forall i | 0 <= i < a + b
      ensures l[i] == Cyclic(values, start, a + b)[i]
    {
      if i >= a {
        assert l[i] == Cyclic(values, start + a, b)[i - a];
        assert start + a + (i - a) == start + i;
      }
    }
  }

  /** One `addSamples` call of `process` at `tick`: the table from
      `tick % size`, up to the end of the table or to `target`, whichever
      comes first. */
  function NextChunk(values: seq<Sample>, channel: uint32, tick: uint64, target: uint64): (c: Chunk)
    requires |values| > 0 && tick < target
    ensures ChunkOk(values, channel, c) && c.tick == tick
    ensures tick + |c.samples| <= target
    ensures tick + |c.samples| == target || tick % |values| + |c.samples| == |values|
  {
    var idx := tick % |values|;
    var sz := if |values| - idx < target - tick then |values| - idx else target - tick;
    Chunk(channel, tick, values[idx .. idx + sz])
  }

  /** The `addSamples` calls `process` makes from `tick` to `target`, one
      `NextChunk` after the other. */
  function Plan(values: seq<Sample>, channel: uint32, tick: uint64, target: uint64): (r: seq<Chunk>)
    requires tick < target ==> |values| > 0
    ensures |r| == 0 <==> target <= tick
    ensures |r| > 0 ==> r[0] == NextChunk(values, channel, tick, target)
    decreases target - tick
  {
    if target <= tick then []
    else
      var c := NextChunk(values, channel, tick, target);
      [c] + Plan(values, channel, tick + |c.samples|, target)
  }

  /** Every call of a plan is the `NextChunk` of its own tick: each one sends
      the table from its tick, up to the end of the table or to `target`. */
  lemma {:induction false} PlanFollowsNextChunk(values: seq<Sample>, channel: uint32, tick: uint64, target: uint64)
    requires tick < target ==> |values| > 0
    ensures forall i :: 0 <= i < |Plan(values, channel, tick, target)| ==>
      && Plan(values, channel, tick, target)[i].tick < target
      && Plan(values, channel, tick, target)[i] == NextChunk(values, channel, Plan(values, channel, tick, target)[i].tick, target)
    decreases target - tick
  {
    if tick < target {
      var c := NextChunk(values, channel, tick, target);
      var mid: uint64 := tick + |c.samples|;
      var rest := Plan(values, channel, mid, target);
      var r := Plan(values, channel, tick, target);
      assert r == [c] + rest;
      PlanFollowsNextChunk(values, channel, mid, target);
      forall i | 0 <= i < |r|
        ensures r[i].tick < target && r[i] == NextChunk(values, channel, r[i].tick, target)
      {
        if i > 0 {
          assert r[i] == rest[i - 1];
        }
      }
    }
  }

  /** The loop of `process`: from `start`, send chunks until `target`. */
  method EmitChunks(values: seq<Sample>, channel: uint32, start: uint64, target: uint64)
    returns (chunks: seq<Chunk>, tick: uint64)
    requires start < target ==> |values| > 0
    ensures chunks == Plan(values, channel, start, target)
    ensures forall i :: 0 <= i < |chunks| ==>
      chunks[i].tick < target && chunks[i] == NextChunk(values, channel, chunks[i].tick, target)
    ensures start < target ==> tick == target
    ensures start >= target ==> tick == start && chunks == []
    ensures WellChunked(values, channel, start, chunks)
    ensures tick == start + |Concat(chunks)|
    ensures start < target ==> Concat(chunks) == Cyclic(values, start, target - start)
  {
    tick := start;
    chunks := [];
    if target <= start {
      return;
    }
    while tick < target
      invariant start <= tick <= target
      invariant chunks + Plan(values, channel, tick, target) == Plan(values, channel, start, target)
      decreases target - tick
    {
      var c := NextChunk(values, channel, tick, target);
      var rest := Plan(values, channel, tick + |c.samples|, target);
      assert Plan(values, channel, tick, target) == [c] + rest;
      assert chunks + [c] + rest == chunks + ([c] + rest);
      chunks := chunks + [c];
      tick := tick + |c.samples|;
    }
    assert chunks == chunks + Plan(values, channel, tick, target);
    PlanCovers(values, channel, start, target);
    PlanFollowsNextChunk(values, channel, start, target);
  }

  /** What a list of chunks sends is the samples of its parts in order. */
  lemma {:induction false} ConcatJoin(c1: seq<Chunk>, c2: seq<Chunk>)
    ensures Concat(c1 + c2) == Concat(c1) + Concat(c2)
    decreases |c2|
  {
    if c2 == [] {
      assert c1 + c2 == c1;
    } else {
      var init, last := c2[..|c2| - 1], c2[|c2| - 1];
      assert c2 == init + [last];
      assert c1 + c2 == (c1 + init) + [last];
      ConcatAppend(c1 + init, last);
      ConcatAppend(init, last);
      ConcatJoin(c1, init);
    }
  }

  /** One chunk of two chunk lists joined, the second starting where the
      first ends: it is well formed and starts where those before it end. */
  lemma {:induction false} JoinedChunk(values: seq<Sample>, channel: uint32, start: nat, mid: nat,
                                       first: seq<Chunk>, second: seq<Chunk>, i: nat)
    requires WellChunked(values, channel, start, first) && mid == start + |Concat(first)|
    requires WellChunked(values, channel, mid, second)
    requires i < |first| + |second|
    ensures ChunkOk(values, channel, (first + second)[i])
    ensures (first + second)[i].tick == start + |Concat((first + second)[..i])|
  {
    var all := first + second;
    if i < |first| {
      assert all[..i] == first[..i];
      assert all[i] == first[i];
    } else {
      var j := i - |first|;
      assert all[..i] == first + second[..j];
      assert all[i] == second[j];
      ConcatJoin(first, second[..j]);
    }
  }

  /** Two successive `process` calls, the second starting where the first
      stopped, send one well-formed replay over the whole span. */
  lemma {:induction false} ProcessIsContinuous(values: seq<Sample>, channel: uint32, start: nat, mid: nat, target: nat,
                                               first: seq<Chunk>, second: seq<Chunk>)
    requires |values| > 0 && start <= mid <= target
    requires WellChunked(values, channel, start, first) && Concat(first) == Cyclic(values, start, mid - start)
    requires WellChunked(values, channel, mid, second) && Concat(second) == Cyclic(values, mid, target - mid)
    ensures WellChunked(values, channel, start, first + second)
    ensures Concat(first + second) == Cyclic(values, start, target - start)
  {
    JoinCyclic(values, start, mid, target, first, second);
    JoinWellChunked(values, channel, start, mid, first, second);
  }

  /** Two chunk lists sending successive spans of the cyclic table send,
      joined, the whole span. */
  lemma {:induction false} JoinCyclic(values: seq<Sample>, start: nat, mid: nat, target: nat,
                                      first: seq<Chunk>, second: seq<Chunk>)
    requires |values| > 0 && start <= mid <= target
    requires Concat(first) == Cyclic(values, start, mid - start)
    requires Concat(second) == Cyclic(values, mid, target - mid)
    ensures mid == start + |Concat(first)|
    ensures Concat(first + second) == Cyclic(values, start, target - start)
  {
    assert |Concat(first)| == |Cyclic(values, start, mid - start)| == mid - start;
    ConcatJoin(first, second);
    assert Concat(first + second) == Cyclic(values, start, mid - start) + Cyclic(values, mid, target - mid);
    CyclicSplit(values, start, mid - start, target - mid);
    assert start + (mid - start) == mid && (mid - start) + (target - mid) == target - start;
  }

  /** Two chunk lists, the second starting where the first ends, join into
      one well-formed list. */
  lemma {:induction false} JoinWellChunked(values: seq<Sample>, channel: uint32, start: nat, mid: nat,
                                           first: seq<Chunk>, second: seq<Chunk>)
    requires WellChunked(values, channel, start, first) && mid == start + |Concat(first)|
    requires WellChunked(values, channel, mid, second)
    ensures WellChunked(values, channel, start, first + second)
  {
    forall i | 0 <= i < |first + second|
      ensures ChunkOk(values, channel, (first + second)[i])
      ensures (first + second)[i].tick == start + |Concat((first + second)[..i])|
    {
      JoinedChunk(values, channel, start, mid, first, second, i);
    }
  }

  /** The chunks of a plan are well formed and send exactly the table,
      repeated, from `tick` to `target`. */
  lemma PlanCovers(values: seq<Sample>, channel: uint32, tick: uint64, target: uint64)
    requires tick < target ==> |values| > 0
    ensures WellChunked(values, channel, tick, Plan(values, channel, tick, target))
    ensures tick < target ==> Concat(Plan(values, channel, tick, target)) == Cyclic(values, tick, target - tick)
    ensures target <= tick ==> Concat(Plan(values, channel, tick, target)) == []
  {
    PlanWellChunked(values, channel, tick, target);
    PlanSends(values, channel, tick, target);
  }

  /** The chunks of a plan are well formed, each starting where the ones
      before it end. */
  lemma {:induction false} PlanWellChunked(values: seq<Sample>, channel: uint32, tick: uint64, target: uint64)
    requires tick < target ==> |values| > 0
    ensures WellChunked(values, channel, tick, Plan(values, channel, tick, target))
    decreases target - tick
  {
    if tick < target {
      var c := NextChunk(values, channel, tick, target);
      var mid: uint64 := tick + |c.samples|;
      var rest := Plan(values, channel, mid, target);
      assert Plan(values, channel, tick, target) == [c] + rest;
      PlanWellChunked(values, channel, mid, target);
      assert [c][..0] == [];
      assert Concat([c]) == c.samples;
      JoinWellChunked(values, channel, tick, mid, [c], rest);
    }
  }

  /** The first call of a plan sends the table, repeated, from `tick`. */
  lemma {:induction false} FirstChunkSends(values: seq<Sample>, channel: uint32, tick: uint64, target: uint64)
    requires |values| > 0 && tick < target
    ensures Concat([NextChunk(values, channel, tick, target)])
      == Cyclic(values, tick, |NextChunk(values, channel, tick, target).samples|)
  {
    var c := NextChunk(values, channel, tick, target);
    assert [c][..0] == [];
    assert Concat([c]) == c.samples;
    SliceIsCyclic(values, tick, |c.samples|);
  }

  /** A plan sends exactly the table, repeated, from `tick` to `target`. */
  lemma {:induction false} PlanSends(values: seq<Sample>, channel: uint32, tick: uint64, target: uint64)
    requires tick < target ==> |values| > 0
    ensures tick < target ==> Concat(Plan(values, channel, tick, target)) == Cyclic(values, tick, target - tick)
    ensures target <= tick ==> Concat(Plan(values, channel, tick, target)) == []
    decreases target - tick
  {
    if tick < target {
      var c := NextChunk(values, channel, tick, target);
      var mid: uint64 := tick + |c.samples|;
      var rest := Plan(values, channel, mid, target);
      assert Plan(values, channel, tick, target) == [c] + rest;
      PlanSends(values, channel, mid, target);
      FirstChunkSends(values, channel, tick, target);
      if mid == target {
        assert Cyclic(values, mid, 0) == [];
      }
      JoinCyclic(values, tick, mid, target, [c], rest);
    }
  }

  // ---------------------------------------------------------------------
  // Specification of update
  // ---------------------------------------------------------------------

  /** The entry `update` pushes for one row. */
  function Entry(row: seq<Finite>): (r: Sample)
    ensures r.Number? <==> |row| > 0
    ensures r.Number? ==> r.x == row[0]
  {
    if |row| > 0 then Number(row[0]) else QuietNaN
  }

  /** Whether some row supplies a first-column value. */
  predicate HasValue(rows: seq<seq<Finite>>) {
    exists i :: 0 <= i < |rows| && |rows[i]| > 0
  }

  /** The loop of `update`: one entry per row, and the range of the values
      found, starting from the sentinels max and lowest. */
  method ExtractColumn(rows: seq<seq<Finite>>) returns (column: seq<Sample>, lo: real, hi: real)
    ensures |column| == |rows| && forall i :: 0 <= i < |rows| ==> column[i] == Entry(rows[i])
    ensures lo <= hi <==> HasValue(rows)
    ensures !HasValue(rows) ==> lo == DoubleMax && hi == -DoubleMax
    ensures forall i :: 0 <= i < |rows| && |rows[i]| > 0 ==> lo <= rows[i][0] <= hi
    ensures HasValue(rows) ==> exists i :: 0 <= i < |rows| && |rows[i]| > 0 && rows[i][0] == lo
    ensures HasValue(rows) ==> exists i :: 0 <= i < |rows| && |rows[i]| > 0 && rows[i][0] == hi
  {
    column := [];
    lo, hi := DoubleMax, -DoubleMax;
    var n := 0;
    while n < |rows|
      invariant 0 <= n <= |rows|
      invariant |column| == n && forall i :: 0 <= i < n ==> column[i] == Entry(rows[i])
      invariant forall i :: 0 <= i < n && |rows[i]| > 0 ==> lo <= rows[i][0] <= hi
      invariant HasValue(rows[..n]) ==> lo <= hi
      invariant HasValue(rows[..n]) ==> exists i :: 0 <= i < n && |rows[i]| > 0 && rows[i][0] == lo
      invariant HasValue(rows[..n]) ==> exists i :: 0 <= i < n && |rows[i]| > 0 && rows[i][0] == hi
      invariant !HasValue(rows[..n]) ==> lo == DoubleMax && hi == -DoubleMax
    {
      var row := rows[n];
      if |row| > 0 {
        lo := if row[0] < lo then row[0] else lo;
        hi := if hi < row[0] then row[0] else hi;
        column := column + [Number(row[0])];
      } else {
        column := column + [QuietNaN];
      }
      assert rows[..n + 1][n] == rows[n];
      assert forall i :: 0 <= i < n ==> rows[..n + 1][i] == rows[..n][i];
      n := n + 1;
    }
    assert rows[..n] == rows;
  }

  /** Bounds that `ExtractColumn` finds for the rows are the least and the
      greatest number of the column. */
  lemma {:induction false} ColumnRange(rows: seq<seq<Finite>>, lo: real, hi: real)
    requires forall i :: 0 <= i < |rows| && |rows[i]| > 0 ==> lo <= rows[i][0] <= hi
    requires exists i :: 0 <= i < |rows| && |rows[i]| > 0 && rows[i][0] == lo
    requires exists i :: 0 <= i < |rows| && |rows[i]| > 0 && rows[i][0] == hi
    ensures forall v :: v in Column(rows) && v.Number? ==> lo <= v.x <= hi
    ensures Number(lo) in Column(rows) && Number(hi) in Column(rows)
  {
    var values := Column(rows);
    forall v | v in values && v.Number?
      ensures lo <= v.x <= hi
    {
      var i :| 0 <= i < |values| && values[i] == v;
      assert values[i] == Entry(rows[i]);
    }
    var a :| 0 <= a < |rows| && |rows[a]| > 0 && rows[a][0] == lo;
    assert values[a] == Number(lo);
    var b :| 0 <= b < |rows| && |rows[b]| > 0 && rows[b][0] == hi;
    assert values[b] == Number(hi);
  }

  /** The column `update` stores: one entry per row. */
  function Column(rows: seq<seq<Finite>>): (r: seq<Sample>)
    ensures |r| == |rows|
  {
    seq(|rows|, i requires 0 <= i < |rows| => Entry(rows[i]))
  }

  // ---------------------------------------------------------------------
  // The channel
  // ---------------------------------------------------------------------

  class ReplayChannel {
    /** `getRootChannel()`, the channel the samples are sent on. */
    const root: Channels.PluginChannel
    /** The value of `m_input_file`. */
    var inputFile: string
    /** The value of `m_acquisition_rate`, in Hz. */
    var acquisitionRate: real
    var values: seq<Sample>
    var nextTick: uint64

    constructor (root: Channels.PluginChannel)
      ensures this.root == root
      ensures inputFile == "" && acquisitionRate == 1000.0
      ensures values == [] && nextTick == Uint64Max
    {
      this.root := root;
      inputFile := "";
      acquisitionRate := 1000.0;
      values := [];
      nextTick := Uint64Max;
    }

    /** `update`, given the rows read from `inputFile` (None when the file
        cannot be opened or parsed).  The replay position is reset, the
        table is rebuilt, and the root channel gets the exact range of the
        values and is valid exactly when some row supplied a value. */
    method Update(rows: Option<seq<seq<Finite>>>) returns (isValid: bool)
      modifies this, root, root.listener
      ensures nextTick == Uint64Max
      ensures rows.Some? ==> values == Column(rows.value)
      ensures rows.None? ==> values == []
      ensures isValid <==> rows.Some? && HasValue(rows.value)
      ensures isValid ==> forall v :: v in values && v.Number? ==> root.range.min <= v.x <= root.range.max
      ensures isValid ==> Number(root.range.min) in values && Number(root.range.max) in values
      ensures !isValid ==> root.range.min == DoubleMax && root.range.max == -DoubleMax
      ensures root.range.minUnit == "" && root.range.maxUnit == ""
      ensures root.info == old(root.info).(valid := isValid, timebase := Some(acquisitionRate))
      ensures root.unit == old(root.unit) && root.properties == old(root.properties)
      ensures root.localParent == old(root.localParent) && root.listener == old(root.listener)
      ensures root.listener != null ==>
        root.listener.State() == old(root.listener.State()).(
          channelsDirty := true,
          propertiesDirty := old(root.listener.propertiesDirty) + {root})
      ensures inputFile == old(inputFile) && acquisitionRate == old(acquisitionRate)
    {
      nextTick := Uint64Max;
      values := [];
      var lo, hi := DoubleMax, -DoubleMax;
      if rows.Some? && |rows.value| > 0 {
        values, lo, hi := ExtractColumn(rows.value);
        assert values == Column(rows.value);
      }
      isValid := lo <= hi;
      if isValid {
        ColumnRange(rows.value, lo, hi);
      }
      var _ := root.SetRange(Range(lo, hi, "", ""));
      var _ := root.SetValid(isValid);
      var _ := root.SetSimpleTimebase(acquisitionRate);
    }

    /** `setup`: a non-empty CSV file name is stored and triggers `update`
        (with the rows read from that file); an empty one changes nothing.
        It always succeeds. */
    method Setup(csvFile: string, rows: Option<seq<seq<Finite>>>) returns (ok: bool)
      modifies this, root, root.listener
      ensures ok
      ensures csvFile == "" ==> unchanged(this, root)
      ensures csvFile == "" && root.listener != null ==> unchanged(root.listener)
      ensures csvFile != "" ==> inputFile == csvFile && nextTick == Uint64Max
      ensures csvFile != "" && rows.Some? ==> values == Column(rows.value)
      ensures csvFile != "" && rows.None? ==> values == []
      ensures csvFile != "" ==> root.info.valid == (rows.Some? && HasValue(rows.value))
      ensures csvFile != "" && rows.Some? && HasValue(rows.value) ==>
        Number(root.range.min) in values && Number(root.range.max) in values &&
        forall v :: v in values && v.Number? ==> root.range.min <= v.x <= root.range.max
      ensures csvFile != "" && !(rows.Some? && HasValue(rows.value)) ==>
        root.range.min == DoubleMax && root.range.max == -DoubleMax
      ensures csvFile != "" ==> acquisitionRate == old(acquisitionRate)
      ensures csvFile != "" ==> root.range.minUnit == "" && root.range.maxUnit == ""
      ensures csvFile != "" ==> root.info == old(root.info).(valid := root.info.valid, timebase := Some(acquisitionRate))
      ensures csvFile != "" ==> root.unit == old(root.unit) && root.properties == old(root.properties)
      ensures csvFile != "" ==> root.localParent == old(root.localParent) && root.listener == old(root.listener)
      ensures csvFile != "" && root.listener != null ==>
        root.listener.State() == old(root.listener.State()).(
          channelsDirty := true,
          propertiesDirty := old(root.listener.propertiesDirty) + {root})
    {
      if csvFile != "" {
        inputFile := csvFile;
        var _ := Update(rows);
      }
      return true;
    }

    /** `prepareProcessing`, given the tick the host's clock is at: replay
        starts there. */
    method PrepareProcessing(startTick: uint64)
      modifies this`nextTick
      ensures nextTick == startTick
    {
      nextTick := startTick;
    }

    /** `process`, given the tick the host's clock has reached.  Returns the
        `addSamples` calls in order. */
    method Process(targetTick: uint64) returns (chunks: seq<Chunk>)
      requires nextTick < targetTick ==> |values| > 0
      modifies this`nextTick
      ensures chunks == Plan(values, root.localId, old(nextTick), targetTick)
      ensures old(nextTick) < targetTick ==> nextTick == targetTick
      ensures old(nextTick) < targetTick ==> Concat(chunks) == Cyclic(values, old(nextTick), targetTick - old(nextTick))
      ensures old(nextTick) >= targetTick ==> nextTick == old(nextTick) && chunks == []
      ensures WellChunked(values, root.localId, old(nextTick), chunks)
    {
      var tick;
      chunks, tick := EmitChunks(values, root.localId, nextTick, targetTick);
      nextTick := tick;
    }
  }
}
