/**
 * The host's named binary tag (NBT) compounds, as values: a compound maps
 * keys to tags. The getters follow the host's lenient conventions: a missing
 * key, or a tag of the wrong kind, reads as the type's default; a numeric
 * getter reads any numeric tag, converting it the way a Java cast does.
 */
module Nbt {
  datatype Tag =
    | ByteTag(b: int)
    | IntTag(i: int)
    | DoubleTag(d: real)
    | StringTag(s: string)
    | CompoundTag(entries: map<string, Tag>)

  type Compound = map<string, Tag>

  /** A Java `(byte)` cast: the low eight bits, read as a signed value. */
  function ByteOf(n: int): (b: int)
    ensures -128 <= b < 128
    ensures (n - b) % 256 == 0
    ensures -128 <= n < 128 ==> b == n
  {
    (n + 128) % 256 - 128
  }

  /** getInteger: the tag's numeric value, a double rounded down; 0 for anything else. */
  function GetInteger(c: Compound, key: string): (v: int)
    ensures key !in c ==> v == 0
    ensures key in c && c[key].IntTag? ==> v == c[key].i
    ensures key in c && c[key].ByteTag? ==> v == c[key].b
    ensures key in c && c[key].DoubleTag? ==> v as real <= c[key].d < v as real + 1.0
    ensures key in c && (c[key].StringTag? || c[key].CompoundTag?) ==> v == 0
  {
    if key !in c then 0
    else match c[key]
      case ByteTag(b) => b
      case IntTag(i) => i
      case DoubleTag(d) => d.Floor
      case _ => 0
  }

  /** getByte: like getInteger, then cast to a byte. */
  function GetByte(c: Compound, key: string): (v: int)
    ensures -128 <= v < 128
    ensures (GetInteger(c, key) - v) % 256 == 0
  {
    ByteOf(GetInteger(c, key))
  }

  /** getBoolean: a byte that is not zero. */
  function GetBoolean(c: Compound, key: string): (v: bool)
    ensures key !in c ==> !v
    ensures key in c && c[key].ByteTag? && -128 <= c[key].b < 128 ==> (v <==> c[key].b != 0)
  {
    GetByte(c, key) != 0
  }

  /** getString: the string stored under the key, or the empty string. */
  function GetString(c: Compound, key: string): (v: string)
    ensures key in c && c[key].StringTag? ==> v == c[key].s
    ensures !(key in c && c[key].StringTag?) ==> v == ""
  {
    if key in c && c[key].StringTag? then c[key].s else ""
  }

  /** getCompoundTag: the compound stored under the key, or an empty one. */
  function GetCompound(c: Compound, key: string): (v: Compound)
    ensures key in c && c[key].CompoundTag? ==> v == c[key].entries
    ensures !(key in c && c[key].CompoundTag?) ==> v == map[]
  {
    if key in c && c[key].CompoundTag? then c[key].entries else map[]
  }

  /** setBoolean: stored as the byte 1 or 0. */
  function SetBoolean(c: Compound, key: string, v: bool): (c': Compound)
    ensures key in c' && c'[key].ByteTag? && (c'[key].b == 1 || c'[key].b == 0)
    ensures forall k :: k in c && k != key ==> k in c' && c'[k] == c[k]
    ensures c'.Keys == c.Keys + {key}
  {
    c[key := ByteTag(if v then 1 else 0)]
  }

  /** What each setter stores reads back unchanged through its getter. */
  lemma SetThenGet(c: Compound, key: string, n: int, s: string, b: bool, sub: Compound)
    ensures GetInteger(c[key := IntTag(n)], key) == n
    ensures GetString(c[key := StringTag(s)], key) == s
    ensures GetBoolean(SetBoolean(c, key, b), key) == b
    ensures GetCompound(c[key := CompoundTag(sub)], key) == sub
  {
  }

  /** A Java int read as a boolean keeps only its low byte: 256 reads as false. */
  lemma IntReadAsBooleanTruncates(c: Compound)
    requires c == map["flag" := IntTag(256)]
    ensures GetInteger(c, "flag") != 0 && !GetBoolean(c, "flag")
  {
  }

  /** A double read back as an integer loses its fraction. */
  lemma DoubleReadAsIntegerFloors(c: Compound)
    requires c == map["x" := DoubleTag(2.5)]
    ensures GetInteger(c, "x") == 2
  {
    assert 2.0 <= 2.5 < 3.0;
  }
}
