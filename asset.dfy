/**
 * The CryptoMyAsset record: one string field, stored as the JSON object
 * {"value":"..."} that json.Marshal writes for it.
 */
module Asset {
  import opened Wrappers
  import opened Json

  datatype CryptoMyAsset = CryptoMyAsset(value: string)

  /** {"value": — the bytes before the field's string literal. */
  function FieldOpen(): (r: Bytes)
    ensures |r| == 9
  {
    Ascii("{\"value\":")
  }

  /** } — the byte after it. */
  function ObjectClose(): (r: Bytes)
    ensures |r| == 1
  {
    Ascii("}")
  }

  /**
   * json.Marshal of a record: the object opener and the opening quote, the
   * escaped value, then the closing quote and the end of the object.
   */
  function Marshal(a: CryptoMyAsset): (r: Bytes)
    ensures |r| == 12 + |EscapeString(a.value)|
    ensures r[..10] == FieldOpen() + [Quote] && r[|r| - 2..] == [Quote] + ObjectClose()
  {
    FieldOpen() + QuoteString(a.value) + ObjectClose()
  }

  /**
   * json.Unmarshal into a record, for the object layout Marshal writes: the
   * value field, then a string literal, then the end of the object.
   */
  function Unmarshal(b: Bytes): (r: Option<CryptoMyAsset>)
    ensures r.Some? ==> |b| >= 12 && b[..10] == FieldOpen() + [Quote] && b[|b| - 1..] == ObjectClose()
  {
    var open := FieldOpen() + [Quote];
    if |b| < |open| || b[..|open|] != open then None
    else
      match ParseChars(b[|open|..])
      case Some((s, rest)) => if rest == ObjectClose() then Some(CryptoMyAsset(s)) else None
      case None => None
  }

  /** Unmarshal reads back every record Marshal writes. */
  lemma UnmarshalMarshal(a: CryptoMyAsset)
    ensures Unmarshal(Marshal(a)) == Some(a)
  {
    var b := Marshal(a);
    var open := FieldOpen() + [Quote];
    assert b == open + (EscapeString(a.value) + [Quote] + ObjectClose());
    assert b[..|open|] == open;
    assert b[|open|..] == EscapeString(a.value) + [Quote] + ObjectClose();
    ParseQuoted(a.value, ObjectClose());
  }

  /** Marshal is injective: distinct records are stored as distinct bytes. */
  lemma MarshalInjective(a: CryptoMyAsset, a': CryptoMyAsset)
    requires Marshal(a) == Marshal(a')
    ensures a == a'
  {
    UnmarshalMarshal(a);
    UnmarshalMarshal(a');
  }

  /** The bytes of {"value":"<v>"}, for a value of HTML-safe characters. */
  function WireForm(v: string): (r: Bytes)
    requires AllHtmlSafe(v)
    ensures |r| == |v| + 12
  {
    var w := "{\"value\":\"" + v + "\"}";
    assert IsAscii(w) by {
      forall i | 0 <= i < |w| ensures w[i] as int < 0x80 {
        if 10 <= i < 10 + |v| { assert w[i] == v[i - 10]; }
      }
    }
    Ascii(w)
  }

  /** A value of HTML-safe characters is stored as the bytes of {"value":"<value>"}. */
  lemma MarshalWireForm(v: string)
    requires AllHtmlSafe(v)
    ensures Marshal(CryptoMyAsset(v)) == WireForm(v)
  {
    EscapeHtmlSafe(v);
    var w := "{\"value\":\"" + v + "\"}";
    var m := Marshal(CryptoMyAsset(v));
    forall i | 0 <= i < |w| ensures m[i] == WireForm(v)[i] {
      if 10 <= i < 10 + |v| {
        assert m[i] == Ascii(v)[i - 10];
        assert w[i] == v[i - 10];
      }
    }
  }
}
