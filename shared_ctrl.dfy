/**
 * The shared panel controls of include/SharedCtrl.h: a fader read through
 * a ring buffer of ADC samples (`HardwareCtrl`), a knob that can be locked
 * to a value and unlocked again when the fader comes near it
 * (`LockingCtrl`), a knob that indexes an array (`ArrayCtrl`) and a group
 * of knobs of which one is active (`ModalCtrl`).
 *
 * ADC readings are parameters. The interrupt masking around each access
 * (`cli`/`sei`) is left out: every operation runs to completion.
 */
module SharedCtrl {
  import Bits

  const MAX_BUFFER_SIZE: int := 128

  datatype Option<T> = None | Some(value: T)

  /** Arduino `constrain`: lo below lo, hi above hi, x otherwise. */
  function Constrain(x: int, lo: int, hi: int): (r: int)
    ensures lo <= hi ==> lo <= r <= hi
    ensures lo <= x <= hi ==> r == x
  {
    if x < lo then lo else if x > hi then hi else x
  }

  /** C++ integer division for a positive divisor: rounds toward zero. */
  function TDiv(a: int, b: int): int
    requires b > 0
  {
    if a >= 0 then a / b else -((-a) / b)
  }

  function Sum(s: seq<int>): int
  {
    if |s| == 0 then 0 else Sum(s[..|s| - 1]) + s[|s| - 1]
  }

  function SeqMin(s: seq<int>): (m: int)
    requires |s| > 0
    ensures forall i :: 0 <= i < |s| ==> m <= s[i]
    ensures m in s
  {
    if |s| == 1 then s[0]
    else
      var m := SeqMin(s[..|s| - 1]);
      assert m in s[..|s| - 1];
      if s[|s| - 1] < m then s[|s| - 1] else m
  }

  function SeqMax(s: seq<int>): (m: int)
    requires |s| > 0
    ensures forall i :: 0 <= i < |s| ==> s[i] <= m
    ensures m in s
  {
    if |s| == 1 then s[0]
    else
      var m := SeqMax(s[..|s| - 1]);
      assert m in s[..|s| - 1];
      if s[|s| - 1] > m then s[|s| - 1] else m
  }

  /** A sum of n values in [lo, hi] lies in [n lo, n hi]. */
  lemma {:induction false} SumBounds(s: seq<int>, lo: int, hi: int)
    requires forall i :: 0 <= i < |s| ==> lo <= s[i] <= hi
    ensures lo * |s| <= Sum(s) <= hi * |s|
  {
    if |s| > 0 {
      SumBounds(s[..|s| - 1], lo, hi);
      assert lo * |s| == lo * (|s| - 1) + lo;
      assert hi * |s| == hi * (|s| - 1) + hi;
    }
  }

  /** A lower bound on n k carries over to the quotient. */
  lemma DivAtLeast(a: int, n: int, k: int)
    requires n > 0 && k * n <= a
    ensures k <= a / n
  {
    var q := a / n;
    if q < k {
      assert n * (k - q) == k * n - n * q;
      Bits.MulAtLeast(n, k - q);
    }
  }

  /** An upper bound on n k carries over to the quotient. */
  lemma DivAtMost(a: int, n: int, k: int)
    requires n > 0 && a <= k * n
    ensures a / n <= k
  {
    var q := a / n;
    if q > k {
      Bits.MulAtLeast(n, q - k);
    }
  }

  /** Truncating division keeps a bound that holds for the scaled sum. */
  lemma TDivBetween(sum: int, n: int, lo: int, hi: int)
    requires n > 0 && lo * n <= sum <= hi * n
    ensures lo <= TDiv(sum, n) <= hi
  {
    if sum >= 0 {
      DivAtLeast(sum, n, lo);
      DivAtMost(sum, n, hi);
    } else {
      assert (-hi) * n <= -sum <= (-lo) * n;
      DivAtLeast(-sum, n, -hi);
      DivAtMost(-sum, n, -lo);
    }
  }

  /** The integer mean of a non-empty sequence lies between its least and its greatest element. */
  lemma MeanBetween(s: seq<int>)
    requires |s| > 0
    ensures SeqMin(s) <= TDiv(Sum(s), |s|) <= SeqMax(s)
  {
    SumBounds(s, SeqMin(s), SeqMax(s));
    TDivBetween(Sum(s), |s|, SeqMin(s), SeqMax(s));
  }

  // ---------------------------------------------------------------------
  // HardwareCtrl

  /** A fader read through a ring buffer of the last `buffSize` samples. */
  class HardwareCtrl {
    const adcMax: int
    const buff: array<int>
    var buffSize: int
    var sampleIdx: int
    var bufferReady: bool

    ghost predicate Valid()
      reads this
    {
      buff.Length == MAX_BUFFER_SIZE && 1 <= buffSize < MAX_BUFFER_SIZE && 0 <= sampleIdx <= buffSize
    }

    /**
     * The sample count is clamped to 1 .. 127, every slot of the buffer
     * takes a first reading, and the write index starts at buffSize.
     */
    constructor (maxValue: int, numSamps: int, readings: seq<int>)
      requires 0 <= numSamps < 256 && |readings| == MAX_BUFFER_SIZE
      ensures Valid() && fresh(buff)
      ensures buffSize == Constrain(numSamps, 1, MAX_BUFFER_SIZE - 1)
      ensures sampleIdx == buffSize && !bufferReady && adcMax == maxValue
      ensures buff[..] == readings
    {
      adcMax := maxValue;
      buffSize := Constrain(numSamps, 1, MAX_BUFFER_SIZE - 1);
      bufferReady := false;
      var b := new int[MAX_BUFFER_SIZE];
      var ii := 0;
      while ii < MAX_BUFFER_SIZE
        invariant 0 <= ii <= MAX_BUFFER_SIZE
        invariant b[..ii] == readings[..ii]
      {
        b[ii] := readings[ii];
        ii := ii + 1;
      }
      buff := b;
      sampleIdx := buffSize;
    }

    /**
     * `service`: stores one reading at the write index and advances it,
     * wrapping to 0 and marking the buffer ready when it reaches buffSize.
     */
    method Service(reading: int)
      requires Valid()
      modifies this, buff
      ensures Valid() && buffSize == old(buffSize)
      ensures old(sampleIdx) < MAX_BUFFER_SIZE && buff[..] == old(buff[..])[old(sampleIdx) := reading]
      ensures sampleIdx < buffSize
      ensures sampleIdx == if old(sampleIdx) + 1 >= buffSize then 0 else old(sampleIdx) + 1
      ensures bufferReady == (old(bufferReady) || old(sampleIdx) + 1 >= buffSize)
    {
      buff[sampleIdx] := reading;
      sampleIdx := sampleIdx + 1;
      if sampleIdx >= buffSize {
        sampleIdx := 0;
        bufferReady := true;
      }
    }

    /**
     * `isReady`: whether a full window has been collected. Only `service`
     * writes the flag and it never clears it, so once true it stays true;
     * until then `read` gives the first slot.
     */
    method IsReady() returns (r: bool)
      requires Valid()
      ensures r == bufferReady
      ensures !r ==> Reading() == buff[0]
      ensures r ==> Reading() == TDiv(Sum(buff[..buffSize]), buffSize)
    {
      r := bufferReady;
    }

    /** What `read` returns: the first slot until the buffer is ready, then the integer mean of the window. */
    function Reading(): int
      requires Valid()
      reads this, buff
    {
      if !bufferReady then buff[0] else TDiv(Sum(buff[..buffSize]), buffSize)
    }

    /**
     * `read`: the first slot before the buffer is ready, afterwards the
     * mean of the first buffSize slots, which lies between their least and
     * greatest value.
     */
    method Read() returns (r: int)
      requires Valid()
      ensures r == Reading()
      ensures !bufferReady ==> r == buff[0]
      ensures bufferReady ==> SeqMin(buff[..buffSize]) <= r <= SeqMax(buff[..buffSize])
    {
      if !bufferReady {
        return buff[0];
      }
      var sum := 0;
      var ii := 0;
      while ii < buffSize
        invariant 0 <= ii <= buffSize
        invariant sum == Sum(buff[..ii])
      {
        assert buff[..ii + 1][..ii] == buff[..ii];
        sum := sum + buff[ii];
        ii := ii + 1;
      }
      assert buff[..ii] == buff[..buffSize];
      MeanBetween(buff[..buffSize]);
      r := TDiv(sum, buffSize);
    }
  }

  // ---------------------------------------------------------------------
  // LockingCtrl

  datatype LockState = Unlocked | UnlockRequested | Locked

  function Abs(x: int): nat
  {
    if x < 0 then -x else x
  }

  /**
   * A knob that holds a value while locked, follows its fader while
   * unlocked, and, when an unlock is requested, unlocks only once the fader
   * comes within `threshInt` of the held value.
   */
  class LockingCtrl {
    const ctrl: HardwareCtrl
    const threshInt: int
    var state: LockState
    var lockVal: int

    /**
     * The threshold, 5 % of the fader's range in the source, is given.
     * The source leaves the state uninitialised; here it starts unlocked,
     * as it does for the zero-initialised global controls.
     */
    constructor (inCtrl: HardwareCtrl, inVal: int, createLocked: bool, thresh: int)
      ensures ctrl == inCtrl && threshInt == thresh && lockVal == inVal
      ensures state == if createLocked then Locked else Unlocked
    {
      ctrl := inCtrl;
      threshInt := thresh;
      lockVal := inVal;
      state := Unlocked;
      new;
      if createLocked {
        Jam(inVal);
      }
    }

    /**
     * `sample`: the held value while locked or while the fader's buffer is
     * not ready; otherwise the fader's reading when unlocked; when an
     * unlock is requested, the reading and the unlocked state if it is
     * within the threshold of the held value, else the held value.
     */
    method Sample() returns (v: int)
      requires ctrl.Valid()
      modifies this
      ensures lockVal == old(lockVal)
      ensures old(state) == Locked || !ctrl.bufferReady ==> v == lockVal && state == old(state)
      ensures old(state) == Unlocked && ctrl.bufferReady ==> v == ctrl.Reading() && state == Unlocked
      ensures old(state) == UnlockRequested && ctrl.bufferReady ==>
        && (state == Unlocked <==> Abs(lockVal - ctrl.Reading()) < threshInt)
        && (state != Unlocked ==> state == UnlockRequested)
        && v == (if state == Unlocked then ctrl.Reading() else lockVal)
      ensures state == Locked <==> old(state) == Locked
    {
      var tmpState := state;
      if tmpState == Locked || !ctrl.bufferReady {
        return lockVal;
      }
      var tmpVal := ctrl.Read();
      if tmpState == Unlocked {
        return tmpVal;
      }
      if Abs(lockVal - tmpVal) < threshInt {
        state := Unlocked;
        return tmpVal;
      }
      return lockVal;
    }

    /** `jam(v)`: always ends locked at v (when already locked at v nothing is written). */
    method Jam(jamVal: int)
      modifies this
      ensures state == Locked && lockVal == jamVal
    {
      var curState := state;
      var lazy := lockVal == jamVal && curState == Locked;
      if lazy {
        return;
      }
      lockVal := jamVal;
      state := Locked;
    }

    /**
     * `lock`: false and no change when already locked; otherwise true and
     * locked. The state is set to locked before `sample` runs, so the value
     * jammed is the previous lock value, not a fresh reading.
     */
    method Lock() returns (changed: bool)
      requires ctrl.Valid()
      modifies this
      ensures changed == (old(state) != Locked)
      ensures state == Locked && lockVal == old(lockVal)
    {
      var tmpState := state;
      if tmpState == Locked {
        return false;
      }
      state := Locked;
      var s := Sample();
      Jam(s);
      return true;
    }

    /** `reqUnlock`: locked becomes unlock-requested; the other two states stay. */
    method ReqUnlock()
      modifies this
      ensures state == if old(state) == Locked then UnlockRequested else old(state)
      ensures lockVal == old(lockVal)
    {
      var tmpState := state;
      if tmpState != Locked {
        return;
      }
      state := UnlockRequested;
    }
  }

  // ---------------------------------------------------------------------
  // ArrayCtrl

  /** A knob whose slice selects an element of an array. */
  class ArrayCtrl {
    const arr: array<int>
    var iter: int

    constructor (a: array<int>, stIdx: int)
      requires 1 <= a.Length < 32768
      ensures arr == a && iter == stIdx % 256
    {
      arr := a;
      iter := stIdx % 256;
    }

    /**
     * `sample`, given the slice its `VirtualCtrl` base returns: the slice
     * narrowed to a `uint8_t`, clamped to the last index, selects the
     * element returned.
     */
    method Sample(slice: int) returns (v: int)
      requires 1 <= arr.Length < 32768
      modifies this
      ensures iter == Constrain(slice % 256, 0, arr.Length - 1)
      ensures 0 <= iter < arr.Length && v == arr[iter]
    {
      var tmp := slice % 256;
      tmp := Constrain(tmp, 0, arr.Length - 1);
      if tmp != iter {
        iter := tmp;
      }
      v := arr[iter];
    }
  }

  // ---------------------------------------------------------------------
  // ModalCtrl

  /**
   * `select` as written compares `ctrlOBJECTS[sel]`, with sel not reduced,
   * against the active control before switching to
   * `ctrlOBJECTS[sel % numModes]`: for sel >= numModes that read lies
   * beyond the array (None here).
   */
  function SelectAsWritten<T(==)>(objects: seq<T>, active: T, sel: int): (r: Option<T>)
    requires |objects| > 0 && 0 <= sel
    ensures r.None? <==> sel >= |objects|
  {
    if sel >= |objects| then None
    else if objects[sel] != active then Some(objects[sel % |objects|])
    else Some(active)
  }

  /** The control `select` evidently means to activate: the one at sel mod numModes. */
  function SelectCorrected<T>(objects: seq<T>, sel: int): (r: T)
    requires |objects| > 0 && 0 <= sel
    ensures r in objects
  {
    objects[sel % |objects|]
  }

  /** Within the array the two agree; with 8 modes, sel = 8 reads past the array as written. */
  lemma SelectAsWrittenAgreesInRange<T>(objects: seq<T>, active: T, sel: int)
    requires |objects| > 0 && 0 <= sel
    ensures sel < |objects| ==> SelectAsWritten(objects, active, sel) == Some(SelectCorrected(objects, sel))
    ensures |objects| == 8 && sel == 8 ==> SelectAsWritten(objects, active, sel) == None
  {
    if sel < |objects| {
      DivModSmall(sel, |objects|);
    }
  }

  lemma DivModSmall(a: int, n: int)
    requires 0 <= a < n
    ensures a % n == a
  {
  }

  /** A bank of knobs sharing one fader, of which one is active. */
  class ModalCtrl {
    const numModes: int
    const objects: seq<LockingCtrl>
    var selMode: int
    var active: LockingCtrl

    ghost predicate Valid()
      reads this
    {
      1 <= numModes < 256 && |objects| == numModes && 0 <= selMode < numModes && active in objects
    }

    constructor (knobs: seq<LockingCtrl>)
      requires 1 <= |knobs| < 256
      ensures Valid() && objects == knobs && selMode == 0 && active == knobs[0]
    {
      numModes := |knobs|;
      objects := knobs;
      selMode := 0;
      active := knobs[0];
    }

    /**
     * `select(sel)` (with the corrected comparison): the active knob is
     * locked, knob sel mod numModes becomes active and is asked to unlock.
     * A knob left behind stays locked at its value; no other knob changes.
     */
    method Select(sel: int) returns (selected: int)
      requires Valid() && 0 <= sel < 256 && active.ctrl.Valid()
      modifies this, objects
      ensures Valid() && selected == selMode == sel % numModes
      ensures active == SelectCorrected(objects, sel)
      ensures old(active) != active ==> old(active).state == Locked && old(active).lockVal == old(active.lockVal)
      ensures var a := SelectCorrected(objects, sel);
        && a.state == (if a == old(active) || old(a.state) == Locked then UnlockRequested else old(a.state))
        && a.lockVal == old(a.lockVal)
      ensures forall o :: o in objects && o != old(active) && o != active ==> o.state == old(o.state) && o.lockVal == old(o.lockVal)
    {
      selMode := sel % numModes;
      var _ := active.Lock();
      if objects[selMode] != active {
        active := objects[selMode];
      }
      active.ReqUnlock();
      selected := selMode;
    }

    /** `peek(sel)`: selects mode sel mod numModes and returns that knob's held value. */
    method Peek(sel: int) returns (v: int)
      requires Valid() && 0 <= sel < 256
      modifies this
      ensures Valid() && selMode == sel % numModes && active == old(active)
      ensures v == objects[selMode].lockVal
    {
      selMode := sel % numModes;
      v := objects[selMode].lockVal;
    }
  }
}
