/** `Request._prepare_payload`: the payload dict is normalised in place before
    the request is built. The sender field `from_whom` is renamed to the wire
    field `from`, and `+` and space are stripped from `mobile_phone`. */
module Payload {
  import opened Values

  /** A Python dict shared by reference with the caller. */
  class Dict {
    var entries: map<string, Json>

    constructor (entries: map<string, Json>)
      ensures this.entries == entries
    {
      this.entries := entries;
    }
  }

  // ---------------------------------------------------------------------
  // str.replace(c, "") and the phone number filter
  // ---------------------------------------------------------------------

  /** `s.replace(c, "")`: `s` with every occurrence of `c` dropped. */
  function RemoveAll(s: string, c: char): (r: string)
    ensures |r| <= |s|
    ensures c !in r
  {
    if s == [] then []
    else (if s[0] == c then [] else [s[0]]) + RemoveAll(s[1..], c)
  }

  /** Removing one character adds no other. */
  lemma {:induction false} RemoveAllAddsNothing(s: string, c: char, x: char)
    requires x !in s
    ensures x !in RemoveAll(s, c)
  {
    if s != [] {
      RemoveAllAddsNothing(s[1..], c, x);
    }
  }

  lemma {:induction false} RemoveAllAppend(a: string, b: string, c: char)
    ensures RemoveAll(a + b, c) == RemoveAll(a, c) + RemoveAll(b, c)
  {
    if a == [] {
      assert a + b == b;
    } else {
      assert (a + b)[1..] == a[1..] + b;
      RemoveAllAppend(a[1..], b, c);
    }
  }

  lemma {:induction false} RemoveAllAbsent(s: string, c: char)
    requires c !in s
    ensures RemoveAll(s, c) == s
  {
    if s != [] {
      assert s == [s[0]] + s[1..];
      RemoveAllAbsent(s[1..], c);
    }
  }

  predicate IsPlusOrSpace(c: char) {
    c == '+' || c == ' '
  }

  /** `s.replace("+", "").replace(" ", "")`. */
  function StripPhone(s: string): (r: string)
    ensures '+' !in r && ' ' !in r
  {
    RemoveAllAddsNothing(RemoveAll(s, '+'), ' ', '+');
    RemoveAll(RemoveAll(s, '+'), ' ')
  }

  /** The reference definition: one pass that keeps the other characters in
      their order. */
  function DropPlusAndSpace(s: string): (r: string)
  {
    if s == [] then []
    else (if IsPlusOrSpace(s[0]) then [] else [s[0]]) + DropPlusAndSpace(s[1..])
  }

  /** The two replacements together are that one in-order pass. */
  lemma {:induction false} StripPhoneIsFilter(s: string)
    ensures StripPhone(s) == DropPlusAndSpace(s)
  {
    if s != [] {
      var head := if s[0] == '+' then [] else [s[0]];
      assert RemoveAll(s, '+') == head + RemoveAll(s[1..], '+');
      RemoveAllAppend(head, RemoveAll(s[1..], '+'), ' ');
      StripPhoneIsFilter(s[1..]);
      if head != [] {
        assert RemoveAll(head, ' ') == (if s[0] == ' ' then [] else [s[0]]) + RemoveAll([], ' ');
      }
    }
  }

  lemma StripPhoneIdempotent(s: string)
    ensures StripPhone(StripPhone(s)) == StripPhone(s)
  {
    var r := StripPhone(s);
    RemoveAllAbsent(r, '+');
    RemoveAllAbsent(r, ' ');
  }

  // ---------------------------------------------------------------------
  // The normalisation on the dict's contents
  // ---------------------------------------------------------------------

  /** Lines 159-160: `payload['from'] = payload.pop('from_whom')`. */
  function RenameSender(m: map<string, Json>): (r: map<string, Json>)
    ensures "from_whom" !in r
    ensures "from_whom" in m ==> "from" in r && r["from"] == m["from_whom"]
    ensures "from_whom" !in m ==> r == m
    ensures r.Keys == if "from_whom" in m then m.Keys - {"from_whom"} + {"from"} else m.Keys
    ensures forall k :: k in m && k != "from_whom" && k != "from" ==> k in r && r[k] == m[k]
  {
    if "from_whom" in m then (m - {"from_whom"})["from" := m["from_whom"]] else m
  }

  /** Lines 161-162: the phone number is stripped; `.replace` raises on a
      value that is not a string. */
  function StripMobile(m: map<string, Json>): (r: Result<map<string, Json>>)
    ensures r.Raised? <==> "mobile_phone" in m && !m["mobile_phone"].JStr?
    ensures r.Raised? ==> r.error == NotAString
    ensures r.Ok? ==> r.value.Keys == m.Keys
    ensures r.Ok? ==> forall k :: k in m && k != "mobile_phone" ==> r.value[k] == m[k]
    ensures r.Ok? && "mobile_phone" in m ==> r.value["mobile_phone"] == JStr(StripPhone(m["mobile_phone"].s))
  {
    if "mobile_phone" in m then
      match m["mobile_phone"]
      case JStr(s) => Ok(m["mobile_phone" := JStr(StripPhone(s))])
      case _ => Raised(NotAString)
    else Ok(m)
  }

  /** The contents of the dict `_prepare_payload` returns, given the contents
      of the dict it was handed. */
  function NormalizedPayload(m: map<string, Json>): (r: Result<map<string, Json>>)
    ensures r.Raised? <==> "mobile_phone" in m && !m["mobile_phone"].JStr?
    ensures r.Raised? ==> r.error == NotAString
    ensures r.Ok? ==> "from_whom" !in r.value
    ensures r.Ok? && "from_whom" in m ==> "from" in r.value && r.value["from"] == m["from_whom"]
    ensures r.Ok? && "mobile_phone" in m ==>
              && "mobile_phone" in r.value
              && r.value["mobile_phone"] == JStr(StripPhone(m["mobile_phone"].s))
              && '+' !in r.value["mobile_phone"].s && ' ' !in r.value["mobile_phone"].s
    ensures r.Ok? ==> forall k :: k in m && k != "from_whom" && k != "from" && k != "mobile_phone" ==>
                         k in r.value && r.value[k] == m[k]
    ensures r.Ok? ==> r.value.Keys == if "from_whom" in m then m.Keys - {"from_whom"} + {"from"} else m.Keys
    ensures m == map[] ==> r == Ok(map[])
  {
    StripMobile(RenameSender(m))
  }

  /** Normalising a normalised payload changes nothing. */
  lemma NormalizedPayloadIdempotent(m: map<string, Json>)
    requires NormalizedPayload(m).Ok?
    ensures NormalizedPayload(NormalizedPayload(m).value) == NormalizedPayload(m)
  {
    var n := NormalizedPayload(m).value;
    assert RenameSender(n) == n;
    if "mobile_phone" in n {
      var phone := n["mobile_phone"];
      assert phone == JStr(StripPhone(m["mobile_phone"].s));
      StripPhoneIdempotent(m["mobile_phone"].s);
      assert StripMobile(n) == Ok(n["mobile_phone" := phone]);
      assert n["mobile_phone" := phone] == n;
    }
  }

  /** `_prepare_payload`: an absent or empty payload becomes a new empty dict;
      any other dict is normalised in place and returned. When `.replace`
      raises, the rename has already happened. */
  method PreparePayload(payload: Dict?) returns (r: Result<Dict>)
    modifies payload
    ensures payload == null || old(payload.entries) == map[] ==>
              r.Ok? && fresh(r.value) && r.value.entries == map[]
    ensures payload != null && old(payload.entries) == map[] ==> payload.entries == map[]
    ensures payload != null && old(payload.entries) != map[] ==>
              match NormalizedPayload(old(payload.entries))
              case Ok(m) => r == Ok(payload) && payload.entries == m
              case Raised(e) => r == Raised(e) && payload.entries == RenameSender(old(payload.entries))
  {
    var d: Dict;
    if payload == null || payload.entries == map[] {
      d := new Dict(map[]);
    } else {
      d := payload;
    }
    if "from_whom" in d.entries {
      var sender := d.entries["from_whom"];
      d.entries := d.entries - {"from_whom"};
      d.entries := d.entries["from" := sender];
    }
    if "mobile_phone" in d.entries {
      match d.entries["mobile_phone"]
      case JStr(s) =>
        d.entries := d.entries["mobile_phone" := JStr(StripPhone(s))];
      case _ =>
        return Raised(NotAString);
    }
    r := Ok(d);
  }
}
