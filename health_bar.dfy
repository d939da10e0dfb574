/**
 * The health bar of the player: a slider (maximum and current value) and a
 * row of segment images, one per unit of damage capacity, each showing the
 * normal or the broken sprite. Segment layout (positions and sizes computed
 * from the bar's rectangle) is outside the model.
 */
module HealthDisplay {

  /** The sprite a segment image shows. */
  datatype Sprite = Normal | Broken

  /**
   * The segments after breaking the first `dmg` of them; the rest keep
   * their sprite. A negative `dmg` breaks nothing.
   */
  function Damaged(segments: seq<Sprite>, dmg: int): (r: seq<Sprite>)
    ensures |r| == |segments|
    ensures forall i :: 0 <= i < |r| ==> r[i] == (if i < dmg then Broken else segments[i])
  {
    if segments == [] then []
    else [if 0 < dmg then Broken else segments[0]] + Damaged(segments[1..], dmg - 1)
  }

  /** The segments show `dmg` units of damage: exactly the first `dmg` are broken. */
  ghost predicate ShowsDamage(segments: seq<Sprite>, dmg: int)
  {
    forall i :: 0 <= i < |segments| ==> (segments[i] == Broken <==> i < dmg)
  }

  /** Every segment shows the normal sprite. */
  ghost predicate AllNormal(segments: seq<Sprite>)
  {
    forall i :: 0 <= i < |segments| ==> segments[i] == Normal
  }

  /** A run of `n` segments freshly made from the prefab (none for n <= 0). */
  function Fresh(prefab: Sprite, n: int): (r: seq<Sprite>)
    ensures |r| == if n < 0 then 0 else n
    ensures forall i :: 0 <= i < |r| ==> r[i] == prefab
  {
    if n <= 0 then [] else Fresh(prefab, n - 1) + [prefab]
  }

  /** Breaking up to a larger damage count keeps the bar in step with the damage. */
  lemma DamagedKeepsShowing(segments: seq<Sprite>, d0: int, d1: int)
    requires ShowsDamage(segments, d0)
    requires d0 <= d1
    ensures ShowsDamage(Damaged(segments, d1), d1)
  {
    var r := Damaged(segments, d1);
    forall i | 0 <= i < |r|
      ensures r[i] == Broken <==> i < d1
    {
      if i >= d1 {
        assert r[i] == segments[i];
      }
    }
  }

  /**
   * Lowering the damage count repairs nothing: a bar showing d0 units of
   * damage, asked to show fewer, keeps segment max(d1, 0) broken, so it no
   * longer shows the damage count.
   */
  lemma DamagedNeverRepairs(segments: seq<Sprite>, d0: int, d1: int)
    requires 0 < d0 <= |segments|
    requires d1 < d0
    requires ShowsDamage(segments, d0)
    ensures !ShowsDamage(Damaged(segments, d1), d1)
  {
    var r := Damaged(segments, d1);
    var i := if d1 < 0 then 0 else d1;
    assert segments[i] == Broken;
    assert r[i] == Broken;
  }

  /** A bar freshly filled with normal segments shows no damage, and breaking d of them shows d. */
  lemma FreshBarShowsDamage(n: int, dmg: int)
    requires dmg >= 0
    ensures ShowsDamage(Fresh(Normal, n), 0)
    ensures ShowsDamage(Damaged(Fresh(Normal, n), dmg), dmg)
  {
    DamagedKeepsShowing(Fresh(Normal, n), 0, dmg);
  }

  class HealthBar {
    /** The slider's `maxValue` and `value`. */
    var maxValue: real
    var value: real
    /** The segment images, in order from the first one. */
    var segments: seq<Sprite>
    /** The sprite the segment prefab is made with. */
    const prefabSprite: Sprite

    constructor (prefabSprite: Sprite)
      ensures this.prefabSprite == prefabSprite
      ensures segments == []
    {
      this.prefabSprite := prefabSprite;
      maxValue, value := 0.0, 0.0;
      segments := [];
    }

    /** Sets the slider to `health` out of `health` and appends `numSegments` segments. */
    method SetDefaults(health: real, numSegments: int)
      modifies this
      ensures maxValue == health && value == health
      ensures segments == old(segments) + Fresh(prefabSprite, numSegments)
    {
      maxValue := health;
      value := health;
      var i := 0;
      while i < numSegments
        invariant numSegments >= 0 ==> 0 <= i <= numSegments
        invariant numSegments < 0 ==> i == 0
        invariant segments == old(segments) + Fresh(prefabSprite, i)
        invariant maxValue == health && value == health
      {
        segments := segments + [prefabSprite];
        i := i + 1;
      }
    }

    /** Only the slider value changes. */
    method SetHealth(health: real)
      modifies this
      ensures value == health
      ensures maxValue == old(maxValue) && segments == old(segments)
    {
      value := health;
    }

    /** Breaks the first `dmg` segments, `dmg` clamped to the number of segments. */
    method SetDamagedHealth(dmg: int)
      modifies this
      ensures segments == Damaged(old(segments), dmg)
      ensures maxValue == old(maxValue) && value == old(value)
    {
      var d := dmg;
      if d > |segments| {
        d := |segments|;
      }
      var i := 0;
      while i < d
        invariant d <= |segments| == |old(segments)|
        invariant d >= 0 ==> 0 <= i <= d
        invariant d < 0 ==> i == 0
        invariant forall k :: 0 <= k < |segments| ==>
          segments[k] == (if k < i then Broken else old(segments)[k])
        invariant maxValue == old(maxValue) && value == old(value)
      {
        segments := segments[i := Broken];
        i := i + 1;
      }
      ghost var want := Damaged(old(segments), dmg);
      assert forall k :: 0 <= k < |segments| ==> segments[k] == want[k];
    }

    /** Puts every segment back to the normal sprite. */
    method ResetDamagedHealth()
      modifies this
      ensures |segments| == |old(segments)| && AllNormal(segments)
      ensures maxValue == old(maxValue) && value == old(value)
    {
      var i := 0;
      while i < |segments|
        invariant 0 <= i <= |segments| == |old(segments)|
        invariant forall k :: 0 <= k < i ==> segments[k] == Normal
        invariant maxValue == old(maxValue) && value == old(value)
      {
        segments := segments[i := Normal];
        i := i + 1;
      }
    }
  }
}
