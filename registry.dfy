/**
 * What the world registry (`id2obj` in WorldBuilder.cs) holds for each id,
 * and how the rest of the simulation tells entities apart: by the prefix of
 * their id ("Room", "Human", "Obstacle") and by carrying the Fire component.
 */
module Registry {
  import opened Options
  import opened Geometry

  /**
   * One registry entry: the Transform's world position, whether its
   * GameObject is active, whether it carries the Fire component, whether it
   * has been destroyed (`live` is false once Unity's Destroy has run, when
   * the dictionary still holds the dead Transform) and the id of the robot
   * it is parented to while carried.
   */
  datatype Entity = Entity(pos: Vec3, active: bool, fire: bool, live: bool, parent: Option<string>)

  /** A freshly created, unparented object. */
  function Fresh(pos: Vec3, active: bool, fire: bool): (e: Entity)
    ensures e.live && e.parent == None && e.pos == pos
    ensures e.active == active && e.fire == fire
  {
    Entity(pos, active, fire, true, None)
  }

  predicate IsRoomId(id: string) { "Room" <= id }

  predicate IsHumanId(id: string) { "Human" <= id }

  predicate IsObstacleId(id: string) { "Obstacle" <= id }

  /** The ids whose entries have not been destroyed. */
  function LiveIds(m: map<string, Entity>): (ids: set<string>)
    ensures forall k :: k in ids <==> k in m && m[k].live
  {
    set k | k in m && m[k].live
  }

  /** The value of a decimal digit character. */
  function DigitValue(c: char): int
  {
    c as int - 48
  }

  /** The number three decimal digits spell. */
  function Value3(s: string): int
    requires |s| == 3
  {
    DigitValue(s[0]) * 100 + DigitValue(s[1]) * 10 + DigitValue(s[2])
  }

  /** The three decimal digits of a number from 100 to 999. */
  function Digits3(n: int): (s: string)
    requires 100 <= n < 1000
    ensures |s| == 3 && forall i :: 0 <= i < 3 ==> '0' <= s[i] <= '9'
    ensures Value3(s) == n
  {
    [Digit(n / 100), Digit(n / 10 % 10), Digit(n % 10)]
  }

  function Digit(d: int): (c: char)
    requires 0 <= d < 10
    ensures '0' <= c <= '9' && DigitValue(c) == d
  {
    (48 + d) as char
  }

  /** The name SpawnFire gives a fire: "Fire" followed by the digits of Random.Range(100, 999). */
  function FireName(n: int): (name: string)
    requires 100 <= n < 999
    ensures |name| == 7 && name[..4] == "Fire"
    ensures forall i :: 4 <= i < 7 ==> '0' <= name[i] <= '9'
    ensures Value3(name[4..]) == n
    ensures !IsRoomId(name) && !IsHumanId(name) && !IsObstacleId(name)
  {
    var name := "Fire" + Digits3(n);
    assert name[0] == 'F' && name[4..] == Digits3(n);
    name
  }

  /** Different draws give different names, so a fire name is reused only when the same number comes up again. */
  lemma FireNamesDistinct(n: int, m: int)
    requires 100 <= n < 999 && 100 <= m < 999 && n != m
    ensures FireName(n) != FireName(m)
  {
  }

  /** A collider returned by Physics.OverlapBox; `Gone` is a destroyed one. */
  datatype Hit = Gone | Collider(tag: string)
}
