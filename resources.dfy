/**
 * Hardware identifiers and the resource grant a module receives
 * (internal/module/resources.go).
 */
module Resources {
  import opened Geometry

  /** Go's uint8. */
  type Byte = x: int | 0 <= x < 256

  /** A physical key; the Stream Deck Plus has Key1..Key8. */
  type KeyId = Byte

  /** A rotary dial; the Stream Deck Plus has Dial1..Dial4. */
  type DialId = Byte

  const Key1: KeyId := 1
  const Key2: KeyId := 2
  const Key3: KeyId := 3
  const Key4: KeyId := 4
  const Key5: KeyId := 5
  const Key6: KeyId := 6
  const Key7: KeyId := 7
  const Key8: KeyId := 8

  const Dial1: DialId := 1
  const Dial2: DialId := 2
  const Dial3: DialId := 3
  const Dial4: DialId := 4

  const AllKeys: seq<KeyId> := [Key1, Key2, Key3, Key4, Key5, Key6, Key7, Key8]
  const AllDials: seq<DialId> := [Dial1, Dial2, Dial3, Dial4]

  /** The keys, the strip region and the dials granted to one module. */
  datatype Resources = Resources(keys: seq<KeyId>, stripRect: Rect, dials: seq<DialId>)
  {
    predicate HasKeys() { |keys| > 0 }

    /** The zero rectangle (or any empty one) means no strip region. */
    predicate HasStrip() { !stripRect.Empty() }

    predicate HasDials() { |dials| > 0 }

    function OwnsKey(key: KeyId): (owns: bool)
      ensures owns <==> key in keys
    {
      Occurs(keys, key)
    }

    function OwnsDial(dial: DialId): (owns: bool)
      ensures owns <==> dial in dials
    {
      Occurs(dials, dial)
    }
  }

  /** The zero value of `Resources`: nothing granted. */
  const NoResources := Resources([], ZeroRect, [])

  /** The linear search of OwnsKey and OwnsDial: true at the first equal element. */
  function Occurs(xs: seq<Byte>, x: Byte): (found: bool)
    ensures found <==> x in xs
  {
    if xs == [] then false
    else if xs[0] == x then true
    else Occurs(xs[1..], x)
  }

  /** A module that owns some key has keys, and one that owns some dial has dials. */
  lemma OwnershipImpliesGrant(r: Resources, k: KeyId, d: DialId)
    ensures r.OwnsKey(k) ==> r.HasKeys()
    ensures r.OwnsDial(d) ==> r.HasDials()
  {
  }

  /** A grant has a strip region exactly when its rectangle holds some point; the zero grant has nothing. */
  lemma StripIffSomePoint(r: Resources)
    ensures r.HasStrip() <==> exists p :: r.stripRect.Contains(p)
    ensures !NoResources.HasKeys() && !NoResources.HasStrip() && !NoResources.HasDials()
  {
    if r.HasStrip() {
      assert r.stripRect.Contains(r.stripRect.min);
    }
  }

  /** The identifiers are 1..8 and 1..4, each listed once, in order. */
  lemma IdentifierRanges()
    ensures forall i :: 0 <= i < 8 ==> AllKeys[i] == i + 1
    ensures forall i :: 0 <= i < 4 ==> AllDials[i] == i + 1
    ensures forall k: KeyId :: k in AllKeys <==> 1 <= k <= 8
    ensures forall d: DialId :: d in AllDials <==> 1 <= d <= 4
  {
  }
}
