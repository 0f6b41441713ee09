// An array item: a list of member items that append and putItem grow in
// place. Equality, hash code and serialization walk the members with a
// loop; each loop is proved to compute the item-level definition.

module ArrayItems {
  import opened Base
  import opened Items

  class ArrayItem {
    var arrayItems: seq<Item>

    /** The array's value as an item. */
    function Value(): Item
      reads this
    {
      ArrayValue(arrayItems)
    }

    constructor Empty()
      ensures arrayItems == []
    {
      arrayItems := [];
    }

    constructor (members: seq<Item>)
      ensures arrayItems == members
    {
      arrayItems := members;
    }

    /** append: the item goes at the end. */
    method Append(other: Item)
      modifies this
      ensures arrayItems == old(arrayItems) + [other]
    {
      arrayItems := arrayItems + [other];
    }

    /** putItem: the same as append. */
    method PutItem(value: Item)
      modifies this
      ensures arrayItems == old(arrayItems) + [value]
      ensures GetSize() == old(GetSize()) + 1 && GetItemAt(GetSize() - 1) == Ok(value)
    {
      arrayItems := arrayItems + [value];
    }

    /** getItemAt: the i-th member; an index outside the list is an IndexOutOfBoundsException. */
    function GetItemAt(i: int): (r: Result<Item>)
      reads this
      ensures r.Ok? <==> 0 <= i < |arrayItems|
      ensures r.Ok? ==> r.value == arrayItems[i]
      ensures r.Err? ==> r.error == IndexOutOfBoundsException
    {
      if 0 <= i < |arrayItems| then Ok(arrayItems[i]) else Err(IndexOutOfBoundsException)
    }

    /** getSize: the number of members. */
    function GetSize(): (n: nat)
      reads this
      ensures n == |arrayItems|
    {
      |arrayItems|
    }

    /** equals: the loop over the members, stopping at the first pair that differs. */
    method Equals(other: Item) returns (r: bool)
      ensures r == ItemEquals(Value(), other)
    {
      if !other.ArrayValue? {
        return false;
      }
      if |arrayItems| != |other.members| {
        return false;
      }
      var i := 0;
      while i < |arrayItems|
        invariant 0 <= i <= |arrayItems|
        invariant forall k :: 0 <= k < i ==> ItemEquals(arrayItems[k], other.members[k])
      {
        if !ItemEquals(arrayItems[i], other.members[i]) {
          return false;
        }
        i := i + 1;
      }
      return true;
    }

    /** hashCode: the size, then each member's hash code, added in 32-bit arithmetic. */
    method HashCode(otherHash: Item -> int) returns (h: int)
      ensures h == Items.HashCode(Value(), otherHash)
      ensures IsInt32(h)
    {
      var members := arrayItems;
      h := WrapInt32(|members|);
      assert members[..0] == [];
      for i := 0 to |members|
        invariant h == WrapInt32(|members| + MemberHashSum(members[..i], otherHash))
      {
        HashStep(members, i, otherHash);
        h := WrapInt32(h + Items.HashCode(members[i], otherHash));
      }
      assert members[..|members|] == members;
      assert Value() == ArrayValue(members);
    }

    /** serialize: "[", then each member after a separator (" " first, ", " after), then " ]". */
    method Serialize() returns (r: Result<string>)
      ensures r == Items.Serialize(Value())
    {
      var sb := "[";
      var separator := " ";
      var members := arrayItems;
      ghost var parent := ArrayValue(members);
      SerializeArray(members);
      for i := 0 to |members|
        invariant separator == if i == 0 then " " else ", "
        invariant SerializeMembers(parent, members[..i], " ").Ok?
        invariant sb == "[" + SerializeMembers(parent, members[..i], " ").value
      {
        var member := members[i];
        var text := if member.StringItem? then Ok("\"" + EscapeJson(member.stringValue) + "\"") else Items.Serialize(member);
        MemberText(parent, member);
        if text.Err? {
          SerializeMembersPrefixFails(parent, members, i, " ");
          return Err(text.error);
        }
        SerializeStep(parent, members, i);
        sb := sb + separator + text.value;
        separator := ", ";
      }
      assert members[..|members|] == members;
      r := Ok(sb + " ]");
    }
  }

  /** One more member's hash code, added in 32-bit arithmetic, extends the hash sum by that member. */
  lemma HashStep(ms: seq<Item>, i: nat, otherHash: Item -> int)
    requires i < |ms|
    ensures WrapInt32(WrapInt32(|ms| + MemberHashSum(ms[..i], otherHash)) + Items.HashCode(ms[i], otherHash))
            == WrapInt32(|ms| + MemberHashSum(ms[..i + 1], otherHash))
  {
    assert ms[..i + 1][..i] == ms[..i];
    var total := |ms| + MemberHashSum(ms[..i], otherHash);
    WrapInt32Add(total, Items.HashCode(ms[i], otherHash));
  }

  /** Adding in 32-bit arithmetic step by step is adding once and wrapping. */
  lemma WrapInt32Add(a: int, b: int)
    ensures WrapInt32(WrapInt32(a) + b) == WrapInt32(a + b)
  {
    var x := WrapInt32(a);
    assert (x - a) % 0x1_0000_0000 == 0;
    assert ((x + b) - (a + b)) % 0x1_0000_0000 == 0;
    WrapInt32Congruent(x + b, a + b);
  }

  lemma WrapInt32Congruent(p: int, q: int)
    requires (p - q) % 0x1_0000_0000 == 0
    ensures WrapInt32(p) == WrapInt32(q)
  {
    var k := (p - q) / 0x1_0000_0000;
    assert p == q + k * 0x1_0000_0000;
    assert p % 0x1_0000_0000 == q % 0x1_0000_0000;
  }

  /** An array serializes as its members between "[" and " ]". */
  lemma SerializeArray(ms: seq<Item>)
    ensures SerializeMembers(ArrayValue(ms), ms, " ").Err? ==>
              Items.Serialize(ArrayValue(ms)) == Err(SerializeMembers(ArrayValue(ms), ms, " ").error)
    ensures SerializeMembers(ArrayValue(ms), ms, " ").Ok? ==>
              Items.Serialize(ArrayValue(ms)) == Ok("[" + SerializeMembers(ArrayValue(ms), ms, " ").value + " ]")
  {
  }

  /** What the loop appends for one member is that member's text inside the list. */
  lemma MemberText(parent: Item, m: Item)
    requires m < parent
    ensures SerializeMember(parent, m)
            == if m.StringItem? then Ok("\"" + EscapeJson(m.stringValue) + "\"") else Items.Serialize(m)
  {
  }

  /** A member that serializes extends the text so far by its separator and its text. */
  lemma SerializeStep(parent: Item, ms: seq<Item>, i: nat)
    requires i < |ms| && forall k :: 0 <= k < |ms| ==> ms[k] < parent
    requires SerializeMembers(parent, ms[..i], " ").Ok? && SerializeMember(parent, ms[i]).Ok?
    ensures SerializeMembers(parent, ms[..i + 1], " ").Ok?
    ensures "[" + SerializeMembers(parent, ms[..i + 1], " ").value
            == ("[" + SerializeMembers(parent, ms[..i], " ").value) + (if i == 0 then " " else ", ") + SerializeMember(parent, ms[i]).value
  {
    assert ms[..i + 1][..i] == ms[..i];
    SerializeMembersExtend(parent, ms[..i + 1], " ");
    var done := SerializeMembers(parent, ms[..i], " ").value;
    var sep := if i == 0 then " " else ", ";
    var text := SerializeMember(parent, ms[i]).value;
    assert ("[" + done) + sep + text == "[" + (done + sep + text);
  }

  /** Serializing one more member appends its separator and text, while no member has failed. */
  lemma {:induction false} SerializeMembersExtend(parent: Item, ms: seq<Item>, separator: string)
    requires |ms| > 0 && forall i :: 0 <= i < |ms| ==> ms[i] < parent
    requires SerializeMembers(parent, ms[..|ms| - 1], separator).Ok?
    requires SerializeMember(parent, ms[|ms| - 1]).Ok?
    ensures SerializeMembers(parent, ms, separator).Ok?
    ensures SerializeMembers(parent, ms, separator).value
      == SerializeMembers(parent, ms[..|ms| - 1], separator).value
         + (if |ms| == 1 then separator else ", ") + SerializeMember(parent, ms[|ms| - 1]).value
    decreases |ms|
  {
    var n := |ms|;
    if n > 1 {
      var init := ms[..n - 1];
      var tail := ms[1..];
      assert tail[..n - 2] == init[1..];
      assert init[0] == ms[0] && tail[n - 2] == ms[n - 1];
      assert SerializeMembers(parent, init[1..], ", ").Ok?;
      SerializeMembersExtend(parent, tail, ", ");
      var first := SerializeMember(parent, ms[0]).value;
      var middle := SerializeMembers(parent, init[1..], ", ").value;
      var last := SerializeMember(parent, ms[n - 1]).value;
      assert SerializeMembers(parent, init, separator) == Ok(separator + first + middle);
      assert SerializeMembers(parent, tail, ", ") == Ok(middle + ", " + last);
      assert separator + first + (middle + ", " + last) == (separator + first + middle) + ", " + last;
    } else {
      SerializeSingleMember(parent, ms, separator);
    }
  }

  lemma SerializeSingleMember(parent: Item, ms: seq<Item>, separator: string)
    requires |ms| == 1 && ms[0] < parent
    requires SerializeMember(parent, ms[0]).Ok?
    ensures SerializeMembers(parent, ms[..0], separator) == Ok("")
    ensures SerializeMembers(parent, ms, separator) == Ok(separator + SerializeMember(parent, ms[0]).value)
  {
    assert ms[..0] == [];
    assert ms[1..] == [];
    assert separator + SerializeMember(parent, ms[0]).value + "" == separator + SerializeMember(parent, ms[0]).value;
  }

  /** A member whose serialization fails makes the whole list fail. */
  lemma {:induction false} SerializeMembersPrefixFails(parent: Item, ms: seq<Item>, i: nat, separator: string)
    requires i < |ms| && forall k :: 0 <= k < |ms| ==> ms[k] < parent
    requires SerializeMember(parent, ms[i]).Err?
    ensures SerializeMembers(parent, ms, separator).Err?
    ensures SerializeMembers(parent, ms, separator).error == SerializeMember(parent, ms[i]).error
    decreases i
  {
    if i > 0 {
      assert ms[1..][i - 1] == ms[i];
      SerializeMembersPrefixFails(parent, ms[1..], i - 1, ", ");
    }
  }
}
