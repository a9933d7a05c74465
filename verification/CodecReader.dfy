/** The payload reader and the level writer as the codec runs them: an offset moving over a buffer. */
module CodecReader {
  import opened Common
  import opened Numeric
  import opened Bytes
  import opened Canonical
  import opened FacadeTypes
  import opened Codec

  class PayloadReader {
    const bytes: Bytes
    var offset: nat

    ghost predicate Valid()
      reads this
    {
      offset <= |bytes|
    }

    /** What has not been read yet. */
    function Rest(): Bytes
      requires Valid()
      reads this
    {
      bytes[offset..]
    }

    /** A reader placed behind the tag, which the caller has checked for. */
    constructor (bytes: Bytes)
      requires PAYLOAD_TAG <= bytes
      ensures Valid() && bytes == PAYLOAD_TAG + Rest()
    {
      this.bytes, offset := bytes, |PAYLOAD_TAG|;
      new;
      assert bytes == bytes[..|PAYLOAD_TAG|] + bytes[|PAYLOAD_TAG|..];
    }

    /** The specification of a read: a failed read reports it, a successful one moves past its value. */
    ghost predicate Reads<T>(spec: Parse<T>, r: Result<T, ErrorCode>)
      reads this
    {
      Valid() && if spec.Err? then r == Err(spec.error) else r == Ok(spec.value.0) && Rest() == spec.value.1
    }

    method Take(length: nat) returns (r: Result<Bytes, ErrorCode>)
      requires Valid()
      modifies this
      ensures Valid()
      ensures if length > |old(Rest())| then r == Err(InvalidPayload) && offset == old(offset)
              else r == Ok(old(Rest())[..length]) && Rest() == old(Rest())[length..]
    {
      var end := offset + length;
      if end > |bytes| { return Err(InvalidPayload); }
      assert bytes[offset..end] == Rest()[..length] && bytes[end..] == Rest()[length..];
      r := Ok(bytes[offset..end]);
      offset := end;
    }

    method U64() returns (r: Result<u64, ErrorCode>)
      requires Valid()
      modifies this
      ensures Reads(GetU64(old(Rest())), r)
    {
      var raw := Take(8);
      if raw.Err? { return Err(raw.error); }
      return Ok(FromU64Bytes(raw.value));
    }

    method I64() returns (r: Result<i64, ErrorCode>)
      requires Valid()
      modifies this
      ensures Reads(GetI64(old(Rest())), r)
    {
      var raw := Take(8);
      if raw.Err? { return Err(raw.error); }
      return Ok(FromI64Bytes(raw.value));
    }

    method Boolean() returns (r: Result<bool, ErrorCode>)
      requires Valid()
      modifies this
      ensures Reads(GetBool(old(Rest())), r)
    {
      hide GetU64;
      var v := U64();
      if v.Err? { return Err(v.error); }
      if v.value > 1 { return Err(InvalidPayload); }
      return Ok(v.value == 1);
    }

    method TextField() returns (r: Result<Text, ErrorCode>)
      requires Valid()
      modifies this
      ensures Reads(GetText(old(Rest())), r)
    {
      hide GetU64, ValidUtf8;
      var length := U64();
      if length.Err? { return Err(length.error); }
      if length.value > MAX_TEXT_BYTES { return Err(InvalidPayload); }
      var raw := Take(length.value);
      if raw.Err? { return Err(raw.error); }
      if !ValidUtf8(raw.value) { return Err(InvalidPayload); }
      return raw;
    }

    method OptionalQuantity() returns (r: Result<Option<u64>, ErrorCode>)
      requires Valid()
      modifies this
      ensures Reads(GetOptional(old(Rest())), r)
    {
      hide GetU64, GetBool;
      var present := Boolean();
      if present.Err? { return Err(present.error); }
      if !present.value { return Ok(None); }
      var v := U64();
      if v.Err? { return Err(v.error); }
      return Ok(Some(v.value));
    }

    /** The loop over depth levels. */
    method Levels() returns (r: Result<seq<DepthLevel>, ErrorCode>)
      requires Valid()
      modifies this
      ensures Reads(GetLevels(old(Rest())), r)
    {
      hide GetU64, GetI64;
      var count := U64();
      if count.Err? { return Err(count.error); }
      if count.value > MAX_DEPTH_LEVELS { return Err(InvalidPayload); }
      ghost var all := GetLevelItems(Rest(), count.value);
      var levels: seq<DepthLevel> := [];
      NothingBefore(all);
      for i := 0 to count.value
        invariant Valid() && all == Before(levels, GetLevelItems(Rest(), count.value - i))
      {
        ghost var rest := GetLevelItems(Rest(), count.value - i);
        var price := I64();
        if price.Err? { return Err(price.error); }
        var quantity := U64();
        if quantity.Err? { return Err(quantity.error); }
        var level := DepthLevel(price.value, quantity.value);
        OneMoreBefore(levels, level, GetLevelItems(Rest(), count.value - i - 1));
        levels := levels + [level];
      }
      assert levels + [] == levels;
      return Ok(levels);
    }

    method Finish() returns (r: Option<ErrorCode>)
      requires Valid()
      ensures r.None? <==> Rest() == []
      ensures r.Some? ==> r.value == InvalidPayload
    {
      if offset != |bytes| { return Some(InvalidPayload); }
      return None;
    }
  }

  /** A read of later levels, seen from before the earlier ones. */
  ghost function Before(levels: seq<DepthLevel>, later: Parse<seq<DepthLevel>>): Parse<seq<DepthLevel>> {
    if later.Err? then later else Ok((levels + later.value.0, later.value.1))
  }

  lemma NothingBefore(later: Parse<seq<DepthLevel>>)
    ensures Before([], later) == later
  {
    if later.Ok? { assert [] + later.value.0 == later.value.0; }
  }

  lemma OneMoreBefore(levels: seq<DepthLevel>, level: DepthLevel, later: Parse<seq<DepthLevel>>)
    ensures Before(levels, Before([level], later)) == Before(levels + [level], later)
  {
    if later.Ok? { assert levels + ([level] + later.value.0) == (levels + [level]) + later.value.0; }
  }

  /** The writer's loop over depth levels; `rest` is what follows them. */
  method WriteLevels(w: CanonicalWriter, levels: seq<DepthLevel>, ghost rest: Bytes)
    requires |levels| <= MAX_DEPTH_LEVELS
    modifies w
    ensures w.bytes + rest == old(w.bytes) + PutLevels(levels, rest)
  {
    hide U64Bytes, I64Bytes;
    w.U64(|levels|);
    assert levels[0..] == levels;
    assert w.bytes + PutLevelItems(levels, rest) == old(w.bytes) + PutLevels(levels, rest);
    for i := 0 to |levels|
      invariant w.bytes + PutLevelItems(levels[i..], rest) == old(w.bytes) + PutLevels(levels, rest)
    {
      ghost var later := PutLevelItems(levels[i + 1..], rest);
      assert levels[i..][1..] == levels[i + 1..];
      ghost var before := w.bytes;
      w.I64(levels[i].price);
      w.U64(levels[i].quantity);
      Regroup(before, I64Bytes(levels[i].price), U64Bytes(levels[i].quantity), later);
    }
  }

  lemma Regroup(a: Bytes, b: Bytes, c: Bytes, d: Bytes)
    ensures ((a + (b + [])) + (c + [])) + d == a + (b + (c + d))
  {
    assert b + [] == b && c + [] == c;
  }
}
