/**
 * The NAL-unit side of x265_get_compressed_data
 * (src/heif_encoder_x265.cc, 219-264): the Annex B start code that x265
 * puts before every unit, the filter that drops SEI units carrying
 * unregistered user data, and the specification of one call as a
 * function of the adapter's batch, read cursor and the batches the
 * encoder will still hand out on flush.
 */
module HevcNal {
  import opened Wrappers

  type byte = b: int | 0 <= b < 256

  /** One NAL unit as x265 hands it out: start code, then header and payload. */
  type Unit = seq<byte>

  /** The units returned by one call of x265_encoder_encode. */
  type Batch = seq<Unit>

  /** Number of 0x00 bytes at the front of `u`. */
  function LeadingZeros(u: Unit): (n: nat)
    ensures n <= |u|
    ensures forall i :: 0 <= i < n ==> u[i] == 0
    ensures n < |u| ==> u[n] != 0
  {
    if |u| > 0 && u[0] == 0 then 1 + LeadingZeros(u[1..]) else 0
  }

  /**
   * The start code of the byte stream format of Annex B of ITU-T H.265:
   * zero or more 0x00 bytes, then a 0x01 byte.
   */
  predicate HasStartCode(u: Unit) {
    LeadingZeros(u) < |u| && u[LeadingZeros(u)] == 1
  }

  /** Every unit of a batch starts with a start code. */
  predicate WellFormed(b: Batch) {
    forall i :: 0 <= i < |b| ==> HasStartCode(b[i])
  }

  predicate AllWellFormed(bs: seq<Batch>) {
    forall i :: 0 <= i < |bs| ==> WellFormed(bs[i])
  }

  function Zeros(k: nat): (z: Unit)
    ensures |z| == k && forall i :: 0 <= i < k ==> z[i] == 0
  {
    seq(k, _ => 0)
  }

  /** A unit with a start code of `k` zero bytes and the 0x01 byte before `p`. */
  function AddStartCode(k: nat, p: Unit): Unit {
    Zeros(k) + [1] + p
  }

  /** The number of bytes the start code takes. */
  function StartCodeLength(u: Unit): (n: nat)
    requires HasStartCode(u)
    ensures 1 <= n <= |u| && u[n - 1] == 1
    ensures forall i :: 0 <= i < n - 1 ==> u[i] == 0
  {
    LeadingZeros(u) + 1
  }

  /** The unit with its start code removed. */
  function StripStartCode(u: Unit): (p: Unit)
    requires HasStartCode(u)
    ensures |p| == |u| - StartCodeLength(u)
    ensures u == AddStartCode(LeadingZeros(u), p)
  {
    var n := LeadingZeros(u);
    assert u == u[..n] + [1] + u[n + 1..];
    assert u[..n] == Zeros(n);
    u[n + 1..]
  }

  /** Stripping undoes adding a start code of any length. */
  lemma {:induction false} StripAddStartCode(k: nat, p: Unit)
    ensures HasStartCode(AddStartCode(k, p))
    ensures LeadingZeros(AddStartCode(k, p)) == k
    ensures StripStartCode(AddStartCode(k, p)) == p
  {
    var u := AddStartCode(k, p);
    assert u[k] == 1;
    assert u[k + 1..] == p;
  }

  /**
   * A prefix SEI unit (header byte 0x4e: nal_unit_type 39, PREFIX_SEI_NUT,
   * Table 7-1 of ITU-T H.265) whose first SEI message has payloadType 5,
   * user_data_unregistered (Annex D of ITU-T H.265).
   */
  predicate IsUserDataSei(p: Unit) {
    |p| >= 3 && p[0] == 0x4e && p[2] == 5
  }

  /** What a consumer receives for one unit: nothing for an unregistered-user-data SEI. */
  function Emitted(u: Unit): (r: Option<Unit>)
    requires HasStartCode(u)
    ensures var n := StartCodeLength(u);
      r.None? <==> n + 3 <= |u| && u[n] == 0x4e && u[n + 2] == 5
    ensures r.Some? ==> u == AddStartCode(LeadingZeros(u), r.value)
  {
    var p := StripStartCode(u);
    if IsUserDataSei(p) then None else Some(p)
  }

  /**
   * Only the first SEI message's payloadType is tested: a prefix SEI unit
   * carrying a payloadType 6 message before a user_data_unregistered one is
   * handed out.
   */
  lemma LaterUserDataSeiPasses()
    ensures var u: Unit := [0, 0, 1, 0x4e, 0x01, 0x06, 0x01, 0x00, 0x05, 0x00];
      HasStartCode(u) && Emitted(u) == Some([0x4e, 0x01, 0x06, 0x01, 0x00, 0x05, 0x00])
  {
    StripAddStartCode(2, [0x4e, 0x01, 0x06, 0x01, 0x00, 0x05, 0x00]);
    assert AddStartCode(2, [0x4e, 0x01, 0x06, 0x01, 0x00, 0x05, 0x00]) == [0, 0, 1, 0x4e, 0x01, 0x06, 0x01, 0x00, 0x05, 0x00];
  }

  /** Reference definition: the stripped units a run of units yields, in order. */
  function Visible(us: seq<Unit>): (r: seq<Unit>)
    requires WellFormed(us)
    ensures |r| <= |us|
    ensures forall i :: 0 <= i < |r| ==> !IsUserDataSei(r[i])
  {
    if us == [] then []
    else
      (match Emitted(us[0]) case Some(p) => [p] case None => []) + Visible(us[1..])
  }

  lemma {:induction false} VisibleAppend(a: seq<Unit>, b: seq<Unit>)
    requires WellFormed(a) && WellFormed(b)
    ensures WellFormed(a + b)
    ensures Visible(a + b) == Visible(a) + Visible(b)
  {
    assert WellFormed(a + b) by {
      forall i | 0 <= i < |a + b| ensures HasStartCode((a + b)[i]) {
        if i < |a| { assert (a + b)[i] == a[i]; } else { assert (a + b)[i] == b[i - |a|]; }
      }
    }
    if a != [] {
      assert (a + b)[0] == a[0];
      assert (a + b)[1..] == a[1..] + b;
      VisibleAppend(a[1..], b);
    } else {
      assert a + b == b;
    }
  }

  /** All batches one after the other. */
  function Concat(bs: seq<Batch>): Batch {
    if bs == [] then [] else bs[0] + Concat(bs[1..])
  }

  lemma {:induction false} ConcatWellFormed(bs: seq<Batch>)
    requires AllWellFormed(bs)
    ensures WellFormed(Concat(bs))
  {
    if bs != [] {
      ConcatWellFormed(bs[1..]);
      VisibleAppend(bs[0], Concat(bs[1..]));
    }
  }

  /** The units not yet read: the rest of the current batch, then the later batches. */
  function Pending(nals: Batch, counter: nat, flushes: seq<Batch>): Batch
    requires counter <= |nals|
  {
    nals[counter..] + Concat(flushes)
  }

  /** The result of one x265_get_compressed_data call and the adapter state it leaves. */
  datatype Pulled = Pulled(data: Option<Unit>, nals: Batch, counter: nat, flushes: seq<Batch>)

  /**
   * One call of x265_get_compressed_data on a live encoder, with the read
   * cursor reset before each flush: it returns the next unit of the current
   * batch that is not an unregistered-user-data SEI, asks the encoder for
   * its next batch when the current one is used up, and returns null (with
   * an empty batch) once the encoder has nothing left.
   */
  function Pull(nals: Batch, counter: nat, flushes: seq<Batch>): (r: Pulled)
    requires counter <= |nals| && WellFormed(nals) && AllWellFormed(flushes)
    ensures r.counter <= |r.nals| && WellFormed(r.nals) && AllWellFormed(r.flushes)
    ensures r.data.Some? ==> !IsUserDataSei(r.data.value)
    ensures r.data.Some? ==> 0 < r.counter && r.data.value == StripStartCode(r.nals[r.counter - 1])
    ensures r.data.None? ==> r.nals == [] && r.counter == 0 && r.flushes == []
    ensures |r.flushes| <= |flushes|
    decreases |flushes|, |nals| - counter
  {
    if counter < |nals| then
      var p := StripStartCode(nals[counter]);
      if IsUserDataSei(p) then Pull(nals, counter + 1, flushes)
      else Pulled(Some(p), nals, counter + 1, flushes)
    else if flushes == [] then Pulled(None, [], 0, [])
    else Pull(flushes[0], 0, flushes[1..])
  }

  lemma PendingWellFormed(nals: Batch, counter: nat, flushes: seq<Batch>)
    requires counter <= |nals| && WellFormed(nals) && AllWellFormed(flushes)
    ensures WellFormed(Pending(nals, counter, flushes))
  {
    var rest := nals[counter..];
    assert WellFormed(rest) by {
      forall i | 0 <= i < |rest| ensures HasStartCode(rest[i]) { assert rest[i] == nals[counter + i]; }
    }
    ConcatWellFormed(flushes);
    VisibleAppend(rest, Concat(flushes));
  }

  /** Reading the unit under the cursor takes it off the front of the pending units. */
  lemma PendingStep(nals: Batch, counter: nat, flushes: seq<Batch>)
    requires counter < |nals| && WellFormed(nals) && AllWellFormed(flushes)
    ensures WellFormed(Pending(nals, counter, flushes)) && WellFormed(Pending(nals, counter + 1, flushes))
    ensures Visible(Pending(nals, counter, flushes)) ==
      (match Emitted(nals[counter]) case Some(p) => [p] case None => []) + Visible(Pending(nals, counter + 1, flushes))
  {
    PendingWellFormed(nals, counter, flushes);
    PendingWellFormed(nals, counter + 1, flushes);
    var pending := Pending(nals, counter, flushes);
    assert pending[0] == nals[counter];
    assert pending[1..] == Pending(nals, counter + 1, flushes);
  }

  /** Once the current batch is used up, the pending units are those of the later batches. */
  lemma PendingRefill(nals: Batch, flushes: seq<Batch>)
    requires flushes != []
    ensures Pending(nals, |nals|, flushes) == Pending(flushes[0], 0, flushes[1..])
  {
  }

  /**
   * Each call delivers exactly the first unit of what is still to be
   * delivered and leaves the rest pending: successive calls return the
   * visible units in order, each once, and null exactly when none is left.
   */
  lemma {:induction false} PullDeliversNext(nals: Batch, counter: nat, flushes: seq<Batch>)
    requires counter <= |nals| && WellFormed(nals) && AllWellFormed(flushes)
    ensures WellFormed(Pending(nals, counter, flushes))
    ensures var r := Pull(nals, counter, flushes);
      WellFormed(Pending(r.nals, r.counter, r.flushes)) &&
      Visible(Pending(nals, counter, flushes)) ==
        (if r.data.Some? then [r.data.value] else []) + Visible(Pending(r.nals, r.counter, r.flushes))
    decreases |flushes|, |nals| - counter
  {
    PendingWellFormed(nals, counter, flushes);
    var r := Pull(nals, counter, flushes);
    PendingWellFormed(r.nals, r.counter, r.flushes);
    if counter < |nals| {
      PendingStep(nals, counter, flushes);
      if IsUserDataSei(StripStartCode(nals[counter])) {
        PullDeliversNext(nals, counter + 1, flushes);
      }
    } else if flushes == [] {
      assert Pending(r.nals, r.counter, r.flushes) == [];
      assert Pending(nals, counter, flushes) == [];
    } else {
      PendingRefill(nals, flushes);
      PullDeliversNext(flushes[0], 0, flushes[1..]);
    }
  }

  /** A call returns null exactly when nothing visible is left to deliver. */
  lemma PullNullIffDrained(nals: Batch, counter: nat, flushes: seq<Batch>)
    requires counter <= |nals| && WellFormed(nals) && AllWellFormed(flushes)
    ensures WellFormed(Pending(nals, counter, flushes))
    ensures Pull(nals, counter, flushes).data.None? <==> Visible(Pending(nals, counter, flushes)) == []
  {
    PullDeliversNext(nals, counter, flushes);
  }

  /**
   * The loop as the source writes it: the read cursor is not reset when a
   * new batch arrives from the flush call on line 253, so it may exceed
   * the new batch's size.
   */
  function PullAsWritten(nals: Batch, counter: nat, flushes: seq<Batch>): (r: Pulled)
    requires WellFormed(nals) && AllWellFormed(flushes)
    ensures r.data.Some? ==> !IsUserDataSei(r.data.value)
    ensures r.data.None? ==> r.nals == [] && r.flushes == []
    decreases |flushes|, if counter < |nals| then |nals| - counter else 0
  {
    if counter < |nals| then
      var p := StripStartCode(nals[counter]);
      if IsUserDataSei(p) then PullAsWritten(nals, counter + 1, flushes)
      else Pulled(Some(p), nals, counter + 1, flushes)
    else if flushes == [] then Pulled(None, [], counter, [])
    else PullAsWritten(flushes[0], counter, flushes[1..])
  }

  /**
   * A picture whose first encode call returns one unit (a VPS) and whose
   * flush returns one more (an IDR slice): as written, the second call
   * returns null and the slice is never delivered; with the cursor reset
   * the second call returns the slice.
   */
  lemma AsWrittenDropsFlushedUnit()
    ensures var vps: Unit := [0, 0, 0, 1, 0x40, 0x01];
      var idr: Unit := [0, 0, 1, 0x26, 0x01, 0xaf];
      WellFormed([vps]) && AllWellFormed([[idr]]) &&
      Visible(Pending([vps], 0, [[idr]])) == [[0x40, 0x01], [0x26, 0x01, 0xaf]] &&
      var first := PullAsWritten([vps], 0, [[idr]]);
      first.data == Some([0x40, 0x01]) &&
      WellFormed(first.nals) && AllWellFormed(first.flushes) &&
      PullAsWritten(first.nals, first.counter, first.flushes).data == None &&
      var fixed := Pull([vps], 0, [[idr]]);
      fixed.data == Some([0x40, 0x01]) &&
      Pull(fixed.nals, fixed.counter, fixed.flushes).data == Some([0x26, 0x01, 0xaf])
  {
    var vps: Unit := [0, 0, 0, 1, 0x40, 0x01];
    var idr: Unit := [0, 0, 1, 0x26, 0x01, 0xaf];
    StripAddStartCode(3, [0x40, 0x01]);
    StripAddStartCode(2, [0x26, 0x01, 0xaf]);
    assert AddStartCode(3, [0x40, 0x01]) == vps;
    assert AddStartCode(2, [0x26, 0x01, 0xaf]) == idr;
    assert Concat([[idr]]) == [idr] + Concat([]);
    assert Pending([vps], 0, [[idr]]) == [vps, idr];
    assert [vps, idr][1..] == [idr];
    assert [idr][1..] == [];
  }
}
