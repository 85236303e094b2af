/**
 * The Qibla compass of PrayerTimesActivity: two three-slot sample buffers
 * overwritten in place by sensor events, the visibility of the Qibla panel,
 * and which sensors the activity listens to.
 *
 * Sample values are opaque reals (the float arithmetic is not modelled);
 * SensorManager.getRotationMatrix is an oracle that says whether a rotation
 * could be computed from the two buffers. The compass rotation shown on
 * screen is represented by the pair of buffer contents it was computed from.
 */
module Compass {

  datatype Option<T> = None | Some(value: T)

  type Sample = real

  datatype SensorKind = Accelerometer | MagneticField | OtherSensor

  datatype SensorEvent = SensorEvent(kind: SensorKind, values: seq<Sample>)

  /**
   * System.arraycopy(values, 0, buffer, 0, values.length) on the contents of
   * a buffer: the leading slots take the values, the rest keep theirs.
   */
  function Overwritten(buffer: seq<Sample>, values: seq<Sample>): (r: seq<Sample>)
    requires |values| <= |buffer|
    ensures |r| == |buffer|
    ensures r[..|values|] == values
    ensures forall k :: |values| <= k < |buffer| ==> r[k] == buffer[k]
  {
    values + buffer[|values|..]
  }

  /** Writing a full-length sample replaces the whole buffer. */
  lemma OverwrittenFull(buffer: seq<Sample>, values: seq<Sample>)
    requires |values| == |buffer|
    ensures Overwritten(buffer, values) == values
  {
    assert buffer[|values|..] == [];
  }

  /** Writing the same values twice is writing them once. */
  lemma OverwrittenIdempotent(buffer: seq<Sample>, values: seq<Sample>)
    requires |values| <= |buffer|
    ensures Overwritten(Overwritten(buffer, values), values) == Overwritten(buffer, values)
  {
    var once := Overwritten(buffer, values);
    assert once[|values|..] == buffer[|values|..];
  }

  /** The copy loop of System.arraycopy into the first slots of `dst`. */
  method CopyInto(dst: array<Sample>, values: seq<Sample>)
    requires |values| <= dst.Length
    modifies dst
    ensures dst[..] == Overwritten(old(dst[..]), values)
  {
    var i := 0;
    while i < |values|
      invariant 0 <= i <= |values|
      invariant dst[..i] == values[..i]
      invariant forall k :: i <= k < dst.Length ==> dst[k] == old(dst[k])
    {
      dst[i] := values[i];
      i := i + 1;
    }
  }

  /** System.arraycopy into a three-slot buffer throws for a longer sample. */
  predicate CopyThrows(event: SensorEvent)
  {
    event.kind != OtherSensor && |event.values| > 3
  }

  /** The sensors that startSensors registers for, given the presence flags. */
  function Present(hasAccelerometer: bool, hasMagnetometer: bool): (s: set<SensorKind>)
    ensures Accelerometer in s <==> hasAccelerometer
    ensures MagneticField in s <==> hasMagnetometer
    ensures OtherSensor !in s
  {
    (if hasAccelerometer then {Accelerometer} else {}) + (if hasMagnetometer then {MagneticField} else {})
  }

  class QiblaScreen {
    const lastAccelerometer: array<Sample>
    const lastMagnetometer: array<Sample>
    var hasAccelerometer: bool
    var hasMagnetometer: bool
    /** textViewQibla (and viewCompass) visible. */
    var qiblaVisible: bool
    /** The sensors this activity is registered for. */
    var listening: set<SensorKind>
    /** The buffer contents the displayed compass rotation was computed from. */
    var rotationFrom: Option<(seq<Sample>, seq<Sample>)>

    /**
     * Two distinct three-slot buffers; the activity listens only to sensors
     * that are present, and only while the Qibla panel is visible.
     */
    ghost predicate Valid()
      reads this
    {
      && lastAccelerometer.Length == 3 && lastMagnetometer.Length == 3
      && lastAccelerometer != lastMagnetometer
      && listening <= Present(hasAccelerometer, hasMagnetometer)
      && (!qiblaVisible ==> listening == {})
    }

    /** The fusion guard: the buffers are never null, so only sensor presence counts. */
    predicate FusionReady()
      reads this
    {
      hasAccelerometer && hasMagnetometer
    }

    /**
     * onCreate: zeroed buffers, the Qibla panel hidden (setupViews) and the
     * presence flags set from the default sensors (setupSensors).
     */
    constructor (accelerometerPresent: bool, magnetometerPresent: bool)
      ensures Valid()
      ensures lastAccelerometer[..] == [0.0, 0.0, 0.0] && lastMagnetometer[..] == [0.0, 0.0, 0.0]
      ensures fresh(lastAccelerometer) && fresh(lastMagnetometer)
      ensures hasAccelerometer == accelerometerPresent && hasMagnetometer == magnetometerPresent
      ensures !qiblaVisible && listening == {} && rotationFrom == None
    {
      lastAccelerometer := new Sample[3](_ => 0.0);
      lastMagnetometer := new Sample[3](_ => 0.0);
      qiblaVisible := false;
      listening := {};
      rotationFrom := None;
      hasAccelerometer := accelerometerPresent;
      hasMagnetometer := magnetometerPresent;
    }

    /** startSensors: register for each present sensor (registering twice is a no-op). */
    method StartSensors()
      modifies this
      ensures listening == old(listening) + Present(hasAccelerometer, hasMagnetometer)
      ensures qiblaVisible == old(qiblaVisible) && rotationFrom == old(rotationFrom)
      ensures hasAccelerometer == old(hasAccelerometer) && hasMagnetometer == old(hasMagnetometer)
    {
      if hasAccelerometer {
        listening := listening + {Accelerometer};
      }
      if hasMagnetometer {
        listening := listening + {MagneticField};
      }
    }

    /** stopSensors: unregisterListener(this) drops every registration. */
    method StopSensors()
      modifies this
      ensures listening == {}
      ensures qiblaVisible == old(qiblaVisible) && rotationFrom == old(rotationFrom)
      ensures hasAccelerometer == old(hasAccelerometer) && hasMagnetometer == old(hasMagnetometer)
    {
      listening := {};
    }

    /** showQiblaMode: the panel becomes visible and the present sensors are started. */
    method ShowQiblaMode()
      requires Valid()
      modifies this
      ensures Valid()
      ensures qiblaVisible && listening == old(listening) + Present(hasAccelerometer, hasMagnetometer)
      ensures rotationFrom == old(rotationFrom)
      ensures hasAccelerometer == old(hasAccelerometer) && hasMagnetometer == old(hasMagnetometer)
    {
      qiblaVisible := true;
      StartSensors();
    }

    /** hideQiblaMode: the panel is hidden and every sensor stopped. */
    method HideQiblaMode()
      requires Valid()
      modifies this
      ensures Valid()
      ensures !qiblaVisible && listening == {}
      ensures rotationFrom == old(rotationFrom)
      ensures hasAccelerometer == old(hasAccelerometer) && hasMagnetometer == old(hasMagnetometer)
    {
      qiblaVisible := false;
      StopSensors();
    }

    /** toggleQiblaMode: hide when visible, show otherwise. */
    method ToggleQiblaMode()
      requires Valid()
      modifies this
      ensures Valid()
      ensures qiblaVisible == !old(qiblaVisible)
      ensures qiblaVisible ==> listening == Present(hasAccelerometer, hasMagnetometer)
      ensures !qiblaVisible ==> listening == {}
      ensures rotationFrom == old(rotationFrom)
      ensures hasAccelerometer == old(hasAccelerometer) && hasMagnetometer == old(hasMagnetometer)
    {
      if qiblaVisible {
        HideQiblaMode();
      } else {
        ShowQiblaMode();
      }
    }

    /** onResume: the sensors are restarted only when the Qibla panel is visible. */
    method OnResume()
      requires Valid()
      modifies this
      ensures Valid()
      ensures qiblaVisible == old(qiblaVisible)
      ensures listening == if qiblaVisible then old(listening) + Present(hasAccelerometer, hasMagnetometer) else old(listening)
      ensures rotationFrom == old(rotationFrom)
      ensures hasAccelerometer == old(hasAccelerometer) && hasMagnetometer == old(hasMagnetometer)
    {
      if qiblaVisible {
        StartSensors();
      }
    }

    /** onPause (and onDestroy): every sensor stopped, the panel left as it is. */
    method OnPause()
      requires Valid()
      modifies this
      ensures Valid()
      ensures listening == {} && qiblaVisible == old(qiblaVisible)
      ensures rotationFrom == old(rotationFrom)
      ensures hasAccelerometer == old(hasAccelerometer) && hasMagnetometer == old(hasMagnetometer)
    {
      StopSensors();
    }

    /**
     * onSensorChanged. Nothing happens while the Qibla panel is hidden. An
     * accelerometer event overwrites the accelerometer buffer only, a
     * magnetic-field event the magnetometer buffer only; an event with more
     * than three values from either sensor makes System.arraycopy throw before it copies, and
     * the catch leaves everything as it was. Then, when both sensors are
     * present and the rotation oracle succeeds on the two buffers, the
     * displayed rotation is recomputed from them; otherwise it is kept.
     */
    method OnSensorChanged(event: SensorEvent, rotationSucceeds: (seq<Sample>, seq<Sample>) -> bool)
      requires Valid()
      modifies this, lastAccelerometer, lastMagnetometer
      ensures Valid()
      ensures qiblaVisible == old(qiblaVisible) && listening == old(listening)
      ensures hasAccelerometer == old(hasAccelerometer) && hasMagnetometer == old(hasMagnetometer)
      ensures !qiblaVisible || CopyThrows(event) ==>
        lastAccelerometer[..] == old(lastAccelerometer[..]) &&
        lastMagnetometer[..] == old(lastMagnetometer[..]) &&
        rotationFrom == old(rotationFrom)
      ensures qiblaVisible && !CopyThrows(event) ==>
        lastAccelerometer[..] == (if event.kind == Accelerometer then Overwritten(old(lastAccelerometer[..]), event.values)
                                  else old(lastAccelerometer[..])) &&
        lastMagnetometer[..] == (if event.kind == MagneticField then Overwritten(old(lastMagnetometer[..]), event.values)
                                 else old(lastMagnetometer[..])) &&
        rotationFrom == (if FusionReady() && rotationSucceeds(lastAccelerometer[..], lastMagnetometer[..])
                         then Some((lastAccelerometer[..], lastMagnetometer[..]))
                         else old(rotationFrom))
    {
      if !qiblaVisible {
        return;
      }
      if event.kind == Accelerometer {
        if |event.values| > 3 {
          return;
        }
        CopyInto(lastAccelerometer, event.values);
      } else if event.kind == MagneticField {
        if |event.values| > 3 {
          return;
        }
        CopyInto(lastMagnetometer, event.values);
      }
      if hasAccelerometer && hasMagnetometer {
        var success := rotationSucceeds(lastAccelerometer[..], lastMagnetometer[..]);
        if success {
          rotationFrom := Some((lastAccelerometer[..], lastMagnetometer[..]));
        }
      }
    }
  }
}
