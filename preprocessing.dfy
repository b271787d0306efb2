/** The sensor preprocessing task of the rev1Pro board
    (cats_rev1Pro task_preprocessing.c): every tick it averages the
    readings of the sensors that sensor elimination left usable into SI
    units, falls back to the previous sample when a whole sensor class is
    out, picks the calibrated acceleration axis and, optionally, passes
    acceleration and height through a ring-buffer median filter.

    The sensor elimination (check_sensors), the IMU calibration
    (calibrate_imu), the barometric height formula (calculate_height) and
    the median are not part of this model; the tick takes them as
    parameters. */
module Preprocessing {
  import opened FlightPhases

  /** Sensor counts of the rev1Pro sensor configuration. */
  const NUM_IMU: nat := 2
  const NUM_ACCELEROMETER: nat := 1
  const NUM_BARO: nat := 3
  const NUM_MAGNETO: nat := 1

  /** A three-axis value in SI units. */
  datatype Vec3 = Vec3(x: real, y: real, z: real)

  const Origin: Vec3 := Vec3(0.0, 0.0, 0.0)

  /** A raw three-axis sensor reading in counts. */
  datatype Counts = Counts(x: int, y: int, z: int)

  datatype ImuSample = ImuSample(acc: Counts, gyro: Counts)

  /** SI_data_t: the averaged sample of one tick. */
  datatype SIData = SIData(accel: Vec3, gyro: Vec3, pressure: real, mag: Vec3)

  const ZeroSample: SIData := SIData(Origin, Origin, 0.0, Origin)

  /** The raw readings of one tick: the IMUs, the high-G accelerometers,
      the barometers and the magnetometers. */
  datatype Readings = Readings(imu: seq<ImuSample>, accel: seq<Counts>, baro: seq<int>, mag: seq<Counts>)

  /** Counts-to-SI factors. The acceleration factors list the IMUs first
      and then the high-G accelerometers. */
  datatype Conversions = Conversions(acc: seq<real>, gyro: seq<real>, baro: seq<real>, mag: seq<real>)

  /** sensor_elimination_t: a sensor is usable when its entry is 0. */
  datatype Elimination = Elimination(faulty_imu: seq<int>, faulty_acc: seq<int>, faulty_baro: seq<int>, faulty_mag: seq<int>)

  /** The averaged sample together with the two filter errors the
      averaging raises (true) or clears (false). */
  datatype Averages = Averages(data: SIData, acc_error: bool, height_error: bool)

  /** calibration_data_t: the axis that points up and the cosine-like
      factor of its tilt. */
  datatype Calibration = Calibration(angle: real, axis: int)

  /** state_estimation_input_t: what the filter consumes. */
  datatype EstimationInput = EstimationInput(acceleration_z: real, height_AGL: real)

  predicate Configured(r: Readings, c: Conversions, e: Elimination) {
    && |r.imu| == NUM_IMU && |r.accel| == NUM_ACCELEROMETER && |r.baro| == NUM_BARO && |r.mag| == NUM_MAGNETO
    && |c.acc| == NUM_IMU + NUM_ACCELEROMETER && |c.gyro| == NUM_IMU && |c.baro| == NUM_BARO && |c.mag| == NUM_MAGNETO
    && |e.faulty_imu| == NUM_IMU && |e.faulty_acc| == NUM_ACCELEROMETER
    && |e.faulty_baro| == NUM_BARO && |e.faulty_mag| == NUM_MAGNETO
  }

  // ---------------------------------------------------------------------------
  // Sums over the usable sensors
  // ---------------------------------------------------------------------------

  function Scaled(v: Counts, k: real): Vec3 {
    Vec3(v.x as real * k, v.y as real * k, v.z as real * k)
  }

  function Plus(a: Vec3, b: Vec3): Vec3 {
    Vec3(a.x + b.x, a.y + b.y, a.z + b.z)
  }

  function Divided(v: Vec3, d: real): Vec3
    requires d != 0.0
  {
    Vec3(v.x / d, v.y / d, v.z / d)
  }

  /** The number of usable sensors among the first n. */
  function Usable(faulty: seq<int>, n: nat): (k: nat)
    requires n <= |faulty|
    ensures k <= n
  {
    if n == 0 then 0 else Usable(faulty, n - 1) + (if faulty[n - 1] == 0 then 1 else 0)
  }

  /** The sum of the converted readings src[i] * conv[offset + i] of the
      usable sensors among the first n, in index order. */
  function Sum3(src: seq<Counts>, conv: seq<real>, offset: nat, faulty: seq<int>, n: nat): Vec3
    requires n <= |src| && n <= |faulty| && offset + n <= |conv|
  {
    if n == 0 then Origin
    else
      var s := Sum3(src, conv, offset, faulty, n - 1);
      if faulty[n - 1] == 0 then Plus(s, Scaled(src[n - 1], conv[offset + n - 1])) else s
  }

  /** The same for scalar readings (the barometers). */
  function Sum1(src: seq<int>, conv: seq<real>, faulty: seq<int>, n: nat): real
    requires n <= |src| && n <= |faulty| && n <= |conv|
  {
    if n == 0 then 0.0
    else
      var s := Sum1(src, conv, faulty, n - 1);
      if faulty[n - 1] == 0 then s + src[n - 1] as real * conv[n - 1] else s
  }

  function Accs(imu: seq<ImuSample>): (a: seq<Counts>)
    ensures |a| == |imu| && forall i :: 0 <= i < |imu| ==> a[i] == imu[i].acc
  {
    seq(|imu|, i requires 0 <= i < |imu| => imu[i].acc)
  }

  function Gyros(imu: seq<ImuSample>): (g: seq<Counts>)
    ensures |g| == |imu| && forall i :: 0 <= i < |imu| ==> g[i] == imu[i].gyro
  {
    seq(|imu|, i requires 0 <= i < |imu| => imu[i].gyro)
  }

  // ---------------------------------------------------------------------------
  // avg_and_to_SI
  // ---------------------------------------------------------------------------

  /** The averaged sample when the high-G fallback reads high_g: the IMU
      mean of acceleration and rate; when no IMU is usable, the mean of
      the usable high-G accelerometers (the rate sum then stays zero);
      when neither is usable, the previous acceleration and rate with the
      acceleration error raised. The pressure is the barometer mean or the
      previous pressure with the height error raised; the magnetic field
      is the magnetometer mean or the previous field, with no error. */
  function AveragedFrom(r: Readings, c: Conversions, e: Elimination, previous: SIData, high_g: seq<Counts>): (avg: Averages)
    requires Configured(r, c, e) && |high_g| == NUM_ACCELEROMETER
    ensures avg.acc_error <==> Usable(e.faulty_imu, NUM_IMU) == 0 && Usable(e.faulty_acc, NUM_ACCELEROMETER) == 0
    ensures avg.acc_error ==> avg.data.accel == previous.accel && avg.data.gyro == previous.gyro
    ensures avg.height_error <==> Usable(e.faulty_baro, NUM_BARO) == 0
    ensures avg.height_error ==> avg.data.pressure == previous.pressure
    ensures Usable(e.faulty_mag, NUM_MAGNETO) == 0 ==> avg.data.mag == previous.mag
  {
    var imus := Usable(e.faulty_imu, NUM_IMU);
    var n := if imus == 0 then Usable(e.faulty_acc, NUM_ACCELEROMETER) else imus;
    var acc_sum := if imus == 0 then Sum3(high_g, c.acc, NUM_IMU, e.faulty_acc, NUM_ACCELEROMETER)
                   else Sum3(Accs(r.imu), c.acc, 0, e.faulty_imu, NUM_IMU);
    var gyro_sum := Sum3(Gyros(r.imu), c.gyro, 0, e.faulty_imu, NUM_IMU);
    var baros := Usable(e.faulty_baro, NUM_BARO);
    var mags := Usable(e.faulty_mag, NUM_MAGNETO);
    var accel := if n != 0 then Divided(acc_sum, n as real) else previous.accel;
    var gyro := if n != 0 then Divided(gyro_sum, n as real) else previous.gyro;
    var pressure := if baros != 0 then Sum1(r.baro, c.baro, e.faulty_baro, NUM_BARO) / baros as real
                    else previous.pressure;
    var mag := if mags != 0 then Divided(Sum3(r.mag, c.mag, 0, e.faulty_mag, NUM_MAGNETO), mags as real)
               else previous.mag;
    Averages(SIData(accel, gyro, pressure, mag), n == 0, baros == 0)
  }

  /** avg_and_to_SI with the high-G fallback reading the high-G
      accelerometers. */
  function Averaged(r: Readings, c: Conversions, e: Elimination, previous: SIData): (avg: Averages)
    requires Configured(r, c, e)
  {
    AveragedFrom(r, c, e, previous, r.accel)
  }

  /** avg_and_to_SI as written: the high-G fallback reads the
      acceleration of the IMU with the same index. */
  function AveragedAsWritten(r: Readings, c: Conversions, e: Elimination, previous: SIData): (avg: Averages)
    requires Configured(r, c, e)
  {
    AveragedFrom(r, c, e, previous, Accs(r.imu)[..NUM_ACCELEROMETER])
  }

  /** The high-G accelerometers are consulted only when no IMU is usable:
      while one is, the fallback's readings do not matter. */
  lemma HighGOnlyWithoutImus(r: Readings, c: Conversions, e: Elimination, previous: SIData,
                             high_g1: seq<Counts>, high_g2: seq<Counts>)
    requires Configured(r, c, e) && |high_g1| == NUM_ACCELEROMETER && |high_g2| == NUM_ACCELEROMETER
    requires Usable(e.faulty_imu, NUM_IMU) > 0
    ensures AveragedFrom(r, c, e, previous, high_g1) == AveragedFrom(r, c, e, previous, high_g2)
  {
  }

  /** The high-G fallback defect is confined to ticks in which every IMU
      is eliminated: otherwise the average as written is the intended one. */
  lemma AsWrittenDiffersOnlyWithoutImus(r: Readings, c: Conversions, e: Elimination, previous: SIData)
    requires Configured(r, c, e)
    ensures AveragedAsWritten(r, c, e, previous) != Averaged(r, c, e, previous) ==>
              Usable(e.faulty_imu, NUM_IMU) == 0
  {
    if Usable(e.faulty_imu, NUM_IMU) > 0 {
      HighGOnlyWithoutImus(r, c, e, previous, Accs(r.imu)[..NUM_ACCELEROMETER], r.accel);
    }
  }

  /** avg_and_to_SI: the acceleration and rate loops with the high-G
      fallback, then the barometer and magnetometer loops. */
  method AvgAndToSI(r: Readings, c: Conversions, e: Elimination, previous: SIData) returns (avg: Averages)
    requires Configured(r, c, e)
    ensures avg == Averaged(r, c, e, previous)
  {
    var counter, accel, gyro := SumImus(r, c, e);
    if counter == 0.0 {
      NothingUsableSumsToOrigin(Accs(r.imu), c.acc, 0, e.faulty_imu, NUM_IMU);
      counter, accel := SumHighG(r, c, e);
    }
    var acc_error: bool;
    if counter != 0.0 {
      accel := Divided(accel, counter);
      gyro := Divided(gyro, counter);
      acc_error := false;
    } else {
      accel := previous.accel;
      gyro := previous.gyro;
      acc_error := true;
    }
    var pressure, height_error := MeanPressure(r, c, e, previous);
    var mag := MeanField(r, c, e, previous);
    avg := Averages(SIData(accel, gyro, pressure, mag), acc_error, height_error);
  }

  /** The IMU loop: the float counter and the acceleration and rate sums
      of the usable IMUs. */
  method SumImus(r: Readings, c: Conversions, e: Elimination) returns (counter: real, accel: Vec3, gyro: Vec3)
    requires Configured(r, c, e)
    ensures counter == Usable(e.faulty_imu, NUM_IMU) as real
    ensures accel == Sum3(Accs(r.imu), c.acc, 0, e.faulty_imu, NUM_IMU)
    ensures gyro == Sum3(Gyros(r.imu), c.gyro, 0, e.faulty_imu, NUM_IMU)
  {
    counter, accel, gyro := 0.0, Origin, Origin;
    var i := 0;
    while i < NUM_IMU
      invariant 0 <= i <= NUM_IMU
      invariant counter == Usable(e.faulty_imu, i) as real
      invariant accel == Sum3(Accs(r.imu), c.acc, 0, e.faulty_imu, i)
      invariant gyro == Sum3(Gyros(r.imu), c.gyro, 0, e.faulty_imu, i)
    {
      if e.faulty_imu[i] == 0 {
        counter := counter + 1.0;
        accel := Plus(accel, Scaled(r.imu[i].acc, c.acc[i]));
        gyro := Plus(gyro, Scaled(r.imu[i].gyro, c.gyro[i]));
      }
      i := i + 1;
    }
  }

  /** The high-G loop, entered with zero counter and zero sum. */
  method SumHighG(r: Readings, c: Conversions, e: Elimination) returns (counter: real, accel: Vec3)
    requires Configured(r, c, e)
    ensures counter == Usable(e.faulty_acc, NUM_ACCELEROMETER) as real
    ensures accel == Sum3(r.accel, c.acc, NUM_IMU, e.faulty_acc, NUM_ACCELEROMETER)
  {
    counter, accel := 0.0, Origin;
    var i := 0;
    while i < NUM_ACCELEROMETER
      invariant 0 <= i <= NUM_ACCELEROMETER
      invariant counter == Usable(e.faulty_acc, i) as real
      invariant accel == Sum3(r.accel, c.acc, NUM_IMU, e.faulty_acc, i)
    {
      if e.faulty_acc[i] == 0 {
        counter := counter + 1.0;
        accel := Plus(accel, Scaled(r.accel[i], c.acc[NUM_IMU + i]));
      }
      i := i + 1;
    }
  }

  /** The barometer loop and its fallback. */
  method MeanPressure(r: Readings, c: Conversions, e: Elimination, previous: SIData) returns (pressure: real, height_error: bool)
    requires Configured(r, c, e)
    ensures pressure == Averaged(r, c, e, previous).data.pressure
    ensures height_error == Averaged(r, c, e, previous).height_error
  {
    var counter := 0.0;
    pressure := 0.0;
    var i := 0;
    while i < NUM_BARO
      invariant 0 <= i <= NUM_BARO
      invariant counter == Usable(e.faulty_baro, i) as real
      invariant pressure == Sum1(r.baro, c.baro, e.faulty_baro, i)
    {
      if e.faulty_baro[i] == 0 {
        counter := counter + 1.0;
        pressure := pressure + r.baro[i] as real * c.baro[i];
      }
      i := i + 1;
    }
    if counter != 0.0 {
      pressure := pressure / counter;
      height_error := false;
    } else {
      pressure := previous.pressure;
      height_error := true;
    }
  }

  /** The magnetometer loop and its fallback (which raises no error). */
  method MeanField(r: Readings, c: Conversions, e: Elimination, previous: SIData) returns (mag: Vec3)
    requires Configured(r, c, e)
    ensures mag == Averaged(r, c, e, previous).data.mag
  {
    var counter := 0.0;
    mag := Origin;
    var i := 0;
    while i < NUM_MAGNETO
      invariant 0 <= i <= NUM_MAGNETO
      invariant counter == Usable(e.faulty_mag, i) as real
      invariant mag == Sum3(r.mag, c.mag, 0, e.faulty_mag, i)
    {
      if e.faulty_mag[i] == 0 {
        counter := counter + 1.0;
        mag := Plus(mag, Scaled(r.mag[i], c.mag[i]));
      }
      i := i + 1;
    }
    if counter != 0.0 {
      mag := Divided(mag, counter);
    } else {
      mag := previous.mag;
    }
  }

  // ---------------------------------------------------------------------------
  // Properties of the averaging
  // ---------------------------------------------------------------------------

  /** With no usable sensor the sum is zero. */
  lemma {:induction false} NothingUsableSumsToOrigin(src: seq<Counts>, conv: seq<real>, offset: nat, faulty: seq<int>, n: nat)
    requires n <= |src| && n <= |faulty| && offset + n <= |conv|
    requires Usable(faulty, n) == 0
    ensures Sum3(src, conv, offset, faulty, n) == Origin
  {
    if n > 0 {
      NothingUsableSumsToOrigin(src, conv, offset, faulty, n - 1);
    }
  }

  function Times(v: Vec3, k: real): Vec3 {
    Vec3(v.x * k, v.y * k, v.z * k)
  }

  /** When every usable sensor converts to the same v, the sum is v times
      the number of usable sensors. */
  lemma {:induction false} SumOfAgreeing(src: seq<Counts>, conv: seq<real>, offset: nat, faulty: seq<int>, n: nat, v: Vec3)
    requires n <= |src| && n <= |faulty| && offset + n <= |conv|
    requires forall i :: 0 <= i < n && faulty[i] == 0 ==> Scaled(src[i], conv[offset + i]) == v
    ensures Sum3(src, conv, offset, faulty, n) == Times(v, Usable(faulty, n) as real)
  {
    if n > 0 {
      SumOfAgreeing(src, conv, offset, faulty, n - 1, v);
      var k := Usable(faulty, n - 1) as real;
      if faulty[n - 1] == 0 {
        assert Scaled(src[n - 1], conv[offset + n - 1]) == v;
        TimesOneMore(v, k);
      }
    }
  }

  lemma TimesOneMore(v: Vec3, k: real)
    ensures Plus(Times(v, k), v) == Times(v, k + 1.0)
  {
  }

  /** The same for the barometers. */
  lemma {:induction false} PressureSumOfAgreeing(src: seq<int>, conv: seq<real>, faulty: seq<int>, n: nat, p: real)
    requires n <= |src| && n <= |faulty| && n <= |conv|
    requires forall i :: 0 <= i < n && faulty[i] == 0 ==> src[i] as real * conv[i] == p
    ensures Sum1(src, conv, faulty, n) == p * Usable(faulty, n) as real
  {
    if n > 0 {
      PressureSumOfAgreeing(src, conv, faulty, n - 1, p);
    }
  }

  lemma MeanOfEqualTerms(v: Vec3, k: real)
    requires k != 0.0
    ensures Divided(Times(v, k), k) == v
  {
  }

  /** The averaged acceleration is a mean: when every usable IMU reads
      the same acceleration v, the result is v. */
  lemma AgreeingImusGiveTheirReading(r: Readings, c: Conversions, e: Elimination, previous: SIData, v: Vec3)
    requires Configured(r, c, e) && Usable(e.faulty_imu, NUM_IMU) > 0
    requires forall i :: 0 <= i < NUM_IMU && e.faulty_imu[i] == 0 ==> Scaled(r.imu[i].acc, c.acc[i]) == v
    ensures Averaged(r, c, e, previous).data.accel == v
  {
    SumOfAgreeing(Accs(r.imu), c.acc, 0, e.faulty_imu, NUM_IMU, v);
    MeanOfEqualTerms(v, Usable(e.faulty_imu, NUM_IMU) as real);
  }

  /** With every IMU out, the usable high-G accelerometers take over the
      acceleration, and the rate reads zero. */
  lemma HighGFallbackGivesAccelerometerReading(r: Readings, c: Conversions, e: Elimination, previous: SIData, v: Vec3)
    requires Configured(r, c, e)
    requires Usable(e.faulty_imu, NUM_IMU) == 0 && Usable(e.faulty_acc, NUM_ACCELEROMETER) > 0
    requires forall i :: 0 <= i < NUM_ACCELEROMETER && e.faulty_acc[i] == 0 ==> Scaled(r.accel[i], c.acc[NUM_IMU + i]) == v
    ensures Averaged(r, c, e, previous).data.accel == v
    ensures Averaged(r, c, e, previous).data.gyro == Origin
    ensures !Averaged(r, c, e, previous).acc_error
  {
    SumOfAgreeing(r.accel, c.acc, NUM_IMU, e.faulty_acc, NUM_ACCELEROMETER, v);
    MeanOfEqualTerms(v, Usable(e.faulty_acc, NUM_ACCELEROMETER) as real);
    NothingUsableSumsToOrigin(Gyros(r.imu), c.gyro, 0, e.faulty_imu, NUM_IMU);
  }

  /** The pressure is a mean: when every usable barometer reads p, the
      result is p and the height error is cleared. */
  lemma AgreeingBarometersGiveTheirReading(r: Readings, c: Conversions, e: Elimination, previous: SIData, p: real)
    requires Configured(r, c, e) && Usable(e.faulty_baro, NUM_BARO) > 0
    requires forall i :: 0 <= i < NUM_BARO && e.faulty_baro[i] == 0 ==> r.baro[i] as real * c.baro[i] == p
    ensures Averaged(r, c, e, previous).data.pressure == p
    ensures !Averaged(r, c, e, previous).height_error
  {
    PressureSumOfAgreeing(r.baro, c.baro, e.faulty_baro, NUM_BARO, p);
  }

  /** As written, the high-G fallback reports the acceleration of IMU 0
      (which sensor elimination has just ruled out) instead of the high-G
      accelerometer: here IMU 0 reads 1 count per axis, the accelerometer
      2, and every factor is 1. */
  lemma HighGFallbackReadsEliminatedImu()
    ensures var r := Readings([ImuSample(Counts(1, 1, 1), Counts(0, 0, 0)), ImuSample(Counts(1, 1, 1), Counts(0, 0, 0))],
                              [Counts(2, 2, 2)], [0, 0, 0], [Counts(0, 0, 0)]);
            var c := Conversions([1.0, 1.0, 1.0], [1.0, 1.0], [1.0, 1.0, 1.0], [1.0]);
            var e := Elimination([1, 1], [0], [0, 0, 0], [0]);
            && Configured(r, c, e)
            && AveragedAsWritten(r, c, e, ZeroSample).data.accel == Vec3(1.0, 1.0, 1.0)
            && Averaged(r, c, e, ZeroSample).data.accel == Vec3(2.0, 2.0, 2.0)
  {
    var r := Readings([ImuSample(Counts(1, 1, 1), Counts(0, 0, 0)), ImuSample(Counts(1, 1, 1), Counts(0, 0, 0))],
                      [Counts(2, 2, 2)], [0, 0, 0], [Counts(0, 0, 0)]);
    var c := Conversions([1.0, 1.0, 1.0], [1.0, 1.0], [1.0, 1.0, 1.0], [1.0]);
    var e := Elimination([1, 1], [0], [0, 0, 0], [0]);
    assert Usable(e.faulty_imu, NUM_IMU) == 0;
    assert Usable(e.faulty_acc, NUM_ACCELEROMETER) == 1;
    HighGFallbackGivesAccelerometerReading(r, c, e, ZeroSample, Vec3(2.0, 2.0, 2.0));
    var w := r.(accel := Accs(r.imu)[..NUM_ACCELEROMETER]);
    HighGFallbackGivesAccelerometerReading(w, c, e, ZeroSample, Vec3(1.0, 1.0, 1.0));
  }

  // ---------------------------------------------------------------------------
  // median_filter: the ring buffer
  // ---------------------------------------------------------------------------

  /** The slot of every one of the last |buf| samples: sample n went to
      slot n mod |buf|. */
  ghost predicate Window(buf: seq<real>, samples: seq<real>)
    requires |buf| > 0
  {
    forall n :: 0 <= n < |samples| && |samples| - |buf| <= n ==> buf[n % |buf|] == samples[n]
  }

  /** Slots that no sample has reached yet still hold their initial 0. */
  ghost predicate Untouched(buf: seq<real>, samples: seq<real>) {
    forall j :: |samples| <= j < |buf| ==> buf[j] == 0.0
  }

  /** A multiple of size is at most 0 or at least size. */
  lemma MultipleOutside(size: nat, q: int)
    requires size > 0
    ensures size * q <= 0 || size * q >= size
  {
    if q > 0 {
      assert size * q == size * (q - 1) + size;
    }
  }

  /** Two sample numbers closer than the buffer length use different
      slots. */
  lemma DistinctSlots(n: nat, m: nat, size: nat)
    requires 0 < m - n < size
    ensures n % size != m % size
  {
    var q := m / size - n / size;
    assert m - n == size * q + (m % size - n % size);
    MultipleOutside(size, q);
  }

  /** Writing sample number |samples| at its slot keeps the window. */
  lemma WindowAfterWrite(buf: seq<real>, samples: seq<real>, a: real)
    requires |buf| > 0 && Window(buf, samples)
    ensures Window(buf[|samples| % |buf| := a], samples + [a])
  {
    var size := |buf|;
    var slot := |samples| % size;
    var buf' := buf[slot := a];
    var samples' := samples + [a];
    forall n | 0 <= n < |samples'| && |samples'| - size <= n
      ensures buf'[n % size] == samples'[n]
    {
      if n < |samples| {
        DistinctSlots(n, |samples|, size);
      }
    }
  }

  /** The slot of sample number |samples| is free while fewer samples
      than slots have arrived, so the slots after it stay untouched. */
  lemma UntouchedAfterWrite(buf: seq<real>, samples: seq<real>, a: real)
    requires |buf| > 0 && Untouched(buf, samples)
    ensures Untouched(buf[|samples| % |buf| := a], samples + [a])
  {
    if |samples| < |buf| {
      assert |samples| % |buf| == |samples|;
    }
  }

  /** x mod size is the remainder of any division of x by size. */
  lemma ModUnique(x: int, size: nat, q: int, r: int)
    requires size > 0 && 0 <= r < size && x == size * q + r
    ensures x % size == r
  {
    var d := q - x / size;
    assert x == size * (x / size) + x % size;
    assert size * d == x % size - r;
    MultipleOutside(size, d);
    MultipleOutside(size, -d);
    assert size * (-d) == -(size * d);
  }

  /** Advancing the write index modulo the size follows the sample
      count. */
  lemma NextSlot(k: nat, size: nat)
    requires size > 0
    ensures (k % size + 1) % size == (k + 1) % size
  {
    var r := k % size;
    assert k == size * (k / size) + r;
    if r + 1 < size {
      ModUnique(k + 1, size, k / size, r + 1);
      ModUnique(r + 1, size, 0, r + 1);
    } else {
      ModUnique(k + 1, size, k / size + 1, 0);
      ModUnique(r + 1, size, 1, 0);
    }
  }

  /** median_filter_t: two ring buffers of MEDIAN_FILTER_SIZE entries and
      the index of the next write. The ghost sequences list every sample
      ever inserted. */
  class MedianFilter {
    const acc: array<real>
    const height_AGL: array<real>
    var counter: nat
    ghost var acc_samples: seq<real>
    ghost var height_samples: seq<real>

    ghost predicate Valid()
      reads this, acc, height_AGL
    {
      && acc.Length == height_AGL.Length && acc.Length > 0 && acc != height_AGL
      && |acc_samples| == |height_samples|
      && counter == |acc_samples| % acc.Length
      && Window(acc[..], acc_samples) && Window(height_AGL[..], height_samples)
      && Untouched(acc[..], acc_samples) && Untouched(height_AGL[..], height_samples)
    }

    /** The zero-initialised filter of the given size. */
    constructor (size: nat)
      requires size > 0
      ensures Valid() && fresh(acc) && fresh(height_AGL)
      ensures acc.Length == size && acc_samples == [] && height_samples == []
    {
      acc := new real[size](_ => 0.0);
      height_AGL := new real[size](_ => 0.0);
      counter := 0;
      acc_samples := [];
      height_samples := [];
    }

    /** median_filter: writes the new acceleration and height at counter,
        advances counter modulo the size and returns the medians of the
        two buffers. */
    method Filter(input: EstimationInput, median: seq<real> -> real) returns (output: EstimationInput)
      requires Valid()
      modifies this, acc, height_AGL
      ensures Valid()
      ensures acc[..] == old(acc[..])[old(counter) := input.acceleration_z]
      ensures height_AGL[..] == old(height_AGL[..])[old(counter) := input.height_AGL]
      ensures counter == (old(counter) + 1) % acc.Length && counter < acc.Length
      ensures acc_samples == old(acc_samples) + [input.acceleration_z]
      ensures height_samples == old(height_samples) + [input.height_AGL]
      ensures output == EstimationInput(median(acc[..]), median(height_AGL[..]))
    {
      WindowAfterWrite(acc[..], acc_samples, input.acceleration_z);
      WindowAfterWrite(height_AGL[..], height_samples, input.height_AGL);
      UntouchedAfterWrite(acc[..], acc_samples, input.acceleration_z);
      UntouchedAfterWrite(height_AGL[..], height_samples, input.height_AGL);
      NextSlot(|acc_samples|, acc.Length);
      acc[counter] := input.acceleration_z;
      height_AGL[counter] := input.height_AGL;
      assert acc[..] == old(acc[..])[old(counter) := input.acceleration_z];
      acc_samples := acc_samples + [input.acceleration_z];
      height_samples := height_samples + [input.height_AGL];
      counter := counter + 1;
      counter := counter % acc.Length;
      output := EstimationInput(median(acc[..]), median(height_AGL[..]));
    }
  }

  // ---------------------------------------------------------------------------
  // transform_data and the tick
  // ---------------------------------------------------------------------------

  /** The component of v along axis 0, 1 or 2. */
  function Component(v: Vec3, axis: int): real
    requires 0 <= axis <= 2
  {
    if axis == 0 then v.x else if axis == 1 then v.y else v.z
  }

  /** The acceleration transform_data hands the filter: the calibrated
      axis divided by the tilt factor, less gravity; an axis outside 0..2
      leaves the previous value. */
  function AccelerationZ(calibration: Calibration, accel: Vec3, gravity: real, previous: real): (a: real)
    requires calibration.angle != 0.0
    ensures 0 <= calibration.axis <= 2 ==> a + gravity == Component(accel, calibration.axis) / calibration.angle
    ensures !(0 <= calibration.axis <= 2) ==> a == previous
  {
    match calibration.axis
    case 0 => accel.x / calibration.angle - gravity
    case 1 => accel.y / calibration.angle - gravity
    case 2 => accel.z / calibration.angle - gravity
    case _ => previous
  }

  /** A resting board reads zero: if the calibrated axis measures gravity
      times the tilt factor, the filter input is 0. */
  lemma AtRestReadsZero(calibration: Calibration, accel: Vec3, gravity: real, previous: real)
    requires calibration.angle != 0.0 && 0 <= calibration.axis <= 2
    requires Component(accel, calibration.axis) == gravity * calibration.angle
    ensures AccelerationZ(calibration, accel, gravity, previous) == 0.0
  {
    assert Component(accel, calibration.axis) / calibration.angle == gravity;
  }

  /** Calibration runs on the tick whose phase is READY and differs from
      the phase of the tick before. */
  predicate ReadyEdge(phase: FlightPhase, previous: FlightPhase) {
    phase == Ready && phase != previous
  }

  /** The number of ticks of a phase trace that calibrate. */
  function Calibrations(previous: FlightPhase, trace: seq<FlightPhase>): nat
    decreases |trace|
  {
    if trace == [] then 0
    else (if ReadyEdge(trace[0], previous) then 1 else 0) + Calibrations(trace[0], trace[1..])
  }

  /** Holding READY for any number of ticks calibrates once, on entry. */
  lemma {:induction false} HoldingReadyCalibratesOnce(previous: FlightPhase, trace: seq<FlightPhase>)
    requires trace != [] && forall i :: 0 <= i < |trace| ==> trace[i] == Ready
    ensures Calibrations(previous, trace) == if previous == Ready then 0 else 1
    decreases |trace|
  {
    if |trace| > 1 {
      HoldingReadyCalibratesOnce(Ready, trace[1..]);
    }
  }

  /** The locals of task_preprocessing that live from tick to tick. */
  class Preprocessor {
    var si_data: SIData
    var si_data_old: SIData
    var calibration: Calibration
    var state_input: EstimationInput
    var pressure_0: real
    var old_phase: FlightPhase
    var acc_error: bool
    var height_error: bool
    const filter: MedianFilter
    const use_median_filter: bool
    const gravity: real

    ghost predicate Valid()
      reads this, filter, filter.acc, filter.height_AGL
    {
      filter.Valid() && calibration.angle != 0.0
    }

    /** The task's start: zero samples, angle 1 on axis 2, the initial
        ground pressure and MOVING as the previous phase. */
    constructor (p_initial: real, gravity: real, use_median_filter: bool, filter_size: nat)
      requires filter_size > 0
      ensures Valid() && fresh(filter) && fresh(filter.acc) && fresh(filter.height_AGL)
      ensures si_data == ZeroSample && si_data_old == ZeroSample
      ensures calibration == Calibration(1.0, 2) && state_input == EstimationInput(0.0, 0.0)
      ensures pressure_0 == p_initial && old_phase == Moving
      ensures this.gravity == gravity && this.use_median_filter == use_median_filter
    {
      si_data, si_data_old := ZeroSample, ZeroSample;
      calibration := Calibration(1.0, 2);
      state_input := EstimationInput(0.0, 0.0);
      pressure_0 := p_initial;
      old_phase := Moving;
      acc_error, height_error := false, false;
      this.gravity := gravity;
      this.use_median_filter := use_median_filter;
      filter := new MedianFilter(filter_size);
    }

    /** One pass of the task loop: average, calibrate on the READY edge,
        transform, filter, and remember this tick's phase and sample. The
        sensor elimination is the parameter e; calibrate, height and
        median stand for calibrate_imu, calculate_height at 25 degrees
        and median. */
    method Tick(phase: FlightPhase, r: Readings, c: Conversions, e: Elimination,
                calibrate: Vec3 -> Calibration, height: (real, real) -> real, median: seq<real> -> real)
      requires Valid() && Configured(r, c, e)
      requires forall v :: calibrate(v).angle != 0.0
      modifies this`si_data, this`acc_error, this`height_error, this`calibration, this`pressure_0
      modifies this`state_input, this`old_phase, this`si_data_old, filter, filter.acc, filter.height_AGL
      ensures Valid()
      ensures var avg := Averaged(r, c, e, old(si_data_old));
              si_data == avg.data && acc_error == avg.acc_error && height_error == avg.height_error
      ensures ReadyEdge(phase, old(old_phase)) ==>
                calibration == calibrate(si_data.accel) && pressure_0 == si_data.pressure
      ensures !ReadyEdge(phase, old(old_phase)) ==>
                calibration == old(calibration) && pressure_0 == old(pressure_0)
      ensures var z := AccelerationZ(calibration, si_data.accel, gravity, old(state_input.acceleration_z));
              var h := height(pressure_0, si_data.pressure);
              if use_median_filter then
                && filter.acc_samples == old(filter.acc_samples) + [z]
                && filter.height_samples == old(filter.height_samples) + [h]
                && state_input == EstimationInput(median(filter.acc[..]), median(filter.height_AGL[..]))
              else
                state_input == EstimationInput(z, h) && unchanged(filter, filter.acc, filter.height_AGL)
      ensures old_phase == phase && si_data_old == si_data
    {
      Average(r, c, e);
      CalibrateOnReadyEdge(phase, calibrate);
      TransformAndFilter(height, median);
      old_phase := phase;
      si_data_old := si_data;
    }

    /** avg_and_to_SI against the previous tick's sample. */
    method Average(r: Readings, c: Conversions, e: Elimination)
      requires Configured(r, c, e)
      modifies this`si_data, this`acc_error, this`height_error
      ensures var avg := Averaged(r, c, e, si_data_old);
              si_data == avg.data && acc_error == avg.acc_error && height_error == avg.height_error
    {
      var avg := AvgAndToSI(r, c, e, si_data_old);
      si_data := avg.data;
      acc_error := avg.acc_error;
      height_error := avg.height_error;
    }

    /** The READY edge: calibrate the IMU and take the current pressure
        as the ground pressure. */
    method CalibrateOnReadyEdge(phase: FlightPhase, calibrate: Vec3 -> Calibration)
      requires calibration.angle != 0.0 && forall v :: calibrate(v).angle != 0.0
      modifies this`calibration, this`pressure_0
      ensures calibration.angle != 0.0
      ensures ReadyEdge(phase, old_phase) ==>
                calibration == calibrate(si_data.accel) && pressure_0 == si_data.pressure
      ensures !ReadyEdge(phase, old_phase) ==>
                calibration == old(calibration) && pressure_0 == old(pressure_0)
    {
      if phase == Ready && phase != old_phase {
        calibration := calibrate(si_data.accel);
        pressure_0 := si_data.pressure;
      }
    }

    /** transform_data, then median_filter when it is compiled in. */
    method TransformAndFilter(height: (real, real) -> real, median: seq<real> -> real)
      requires Valid()
      modifies this`state_input, filter, filter.acc, filter.height_AGL
      ensures Valid()
      ensures var z := AccelerationZ(calibration, si_data.accel, gravity, old(state_input.acceleration_z));
              var h := height(pressure_0, si_data.pressure);
              if use_median_filter then
                && filter.acc_samples == old(filter.acc_samples) + [z]
                && filter.height_samples == old(filter.height_samples) + [h]
                && state_input == EstimationInput(median(filter.acc[..]), median(filter.height_AGL[..]))
              else
                state_input == EstimationInput(z, h) && unchanged(filter, filter.acc, filter.height_AGL)
    {
      state_input := EstimationInput(AccelerationZ(calibration, si_data.accel, gravity, state_input.acceleration_z),
                                     height(pressure_0, si_data.pressure));
      if use_median_filter {
        state_input := filter.Filter(state_input, median);
      }
    }
  }
}
