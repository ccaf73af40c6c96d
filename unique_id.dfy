/** The `UniqueId` value object: an identifier string, given or generated
    from the version-4 UUID template. */
module Ids {
  import opened Common

  /** One `Math.random() * 16 | 0` draw. */
  type Nibble = x: int | 0 <= x < 16

  const Template: string := "xxxxxxxx-xxxx-4xxx-yxxx-xxxxxxxxxxxx"
  const HexDigits: string := "0123456789abcdef"

  /** The replacement for one template character: `x` becomes the drawn digit,
      `y` becomes `r & 0x3 | 0x8`, anything else is kept. */
  function FillChar(c: char, r: Nibble): (d: char)
    ensures c == 'x' ==> d in HexDigits
    ensures c == 'y' ==> d in {'8', '9', 'a', 'b'}
    ensures c != 'x' && c != 'y' ==> d == c
  {
    if c == 'x' then HexDigits[r]
    else if c == 'y' then HexDigits[r % 4 + 8]
    else c
  }

  /** The template character at position `i`, by position. */
  function TemplateAt(i: int): char {
    if i == 8 || i == 13 || i == 18 || i == 23 then '-'
    else if i == 14 then '4'
    else if i == 19 then 'y'
    else 'x'
  }

  lemma TemplateAtMatches(i: int)
    requires 0 <= i < |Template|
    ensures Template[i] == TemplateAt(i)
  {
  }

  /** `generateUuid`, with `rnd(i)` the random nibble drawn for template position `i`. */
  function GenerateUuid(rnd: nat -> Nibble): (id: string)
    ensures |id| == 36
    ensures id[8] == '-' && id[13] == '-' && id[18] == '-' && id[23] == '-'
    ensures id[14] == '4'
    ensures id[19] in {'8', '9', 'a', 'b'}
    ensures forall i :: 0 <= i < 36 && i != 8 && i != 13 && i != 14 && i != 18 && i != 19 && i != 23 ==>
      id[i] in HexDigits
  {
    var id := seq(|Template|, i requires 0 <= i < |Template| => FillChar(Template[i], rnd(i)));
    forall i | 0 <= i < 36
      ensures id[i] == FillChar(TemplateAt(i), rnd(i))
    {
      TemplateAtMatches(i);
    }
    id
  }

  datatype UniqueId = UniqueId(value: string) {
    /** Every constructed id is non-empty: an empty argument is replaced by a generated one. */
    predicate Valid() {
      value != ""
    }

    /** `equals(id?)`: value equality, false for a missing argument. */
    function Equals(other: Option<UniqueId>): (eq: bool)
      ensures eq <==> other == Some(this)
    {
      other.Some? && value == other.value.value
    }

    function ToString(): string {
      value
    }
  }

  /** `new UniqueId(id?)`: `id || generateUuid()`. */
  function NewUniqueId(id: Option<string>, rnd: nat -> Nibble): (u: UniqueId)
    ensures u.Valid()
    ensures id.Some? && id.value != "" ==> u.ToString() == id.value
    ensures id.None? || id.value == "" ==> u.ToString() == GenerateUuid(rnd)
  {
    if id.Some? && id.value != "" then UniqueId(id.value) else UniqueId(GenerateUuid(rnd))
  }

  /** `equals` is reflexive and symmetric, and false for a missing argument. */
  lemma EqualsIsEquivalence(a: UniqueId, b: UniqueId)
    ensures a.Equals(Some(a))
    ensures a.Equals(Some(b)) <==> b.Equals(Some(a))
    ensures !a.Equals(None)
  {
  }
}
