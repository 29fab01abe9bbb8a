/** The connector's four device filters. Each is a Python list comprehension
    over the device records returned by `get_all_devices`; a comprehension
    keeps the records whose condition holds, in their order, and raises the
    first exception a condition raises. `Select` models the comprehension and
    `Test` the condition of each filter. */
module DeviceFilters {
  import opened JsonValues

  /** The condition of one of the four filters. `values` is the right operand
      of `==`, `in` or `not in`. */
  datatype Criterion =
    | OfType(deviceType: string)
    | AttributeEquals(deviceType: string, attribute: string, values: Json)
    | AttributeIn(deviceType: string, attribute: string, values: Json)
    | AttributeNotIn(deviceType: string, attribute: string, values: Json)

  /** `device["entity_id"].startswith(device_type)`: a raw string-prefix test. */
  function TypeMatches(device: Json, deviceType: string): (r: Result<bool>)
    ensures r.Ok? <==> Subscript(device, "entity_id").Ok? && Subscript(device, "entity_id").value.JStr?
    ensures r.Ok? ==> r.value == StartsWith(device.fields["entity_id"].s, deviceType)
    ensures Subscript(device, "entity_id").Err? ==> r == Err(Subscript(device, "entity_id").error)
    ensures Subscript(device, "entity_id").Ok? && !Subscript(device, "entity_id").value.JStr? ==> r == Err(AttributeError)
  {
    match Subscript(device, "entity_id")
    case Err(e) => Err(e)
    case Ok(id) => if id.JStr? then Ok(StartsWith(id.s, deviceType)) else Err(AttributeError)
  }

  /** `device["attributes"][attribute]`: a strict lookup that raises when
      either key is missing. */
  function AttributeOf(device: Json, attribute: string): (r: Result<Json>)
    ensures r.Ok? <==> device.JObj? && "attributes" in device.fields
                       && device.fields["attributes"].JObj? && attribute in device.fields["attributes"].fields
    ensures r.Ok? ==> r.value == device.fields["attributes"].fields[attribute]
    ensures !device.JObj? ==> r == Err(TypeError)
    ensures device.JObj? && "attributes" !in device.fields ==> r == Err(KeyError("attributes"))
    ensures device.JObj? && "attributes" in device.fields && !device.fields["attributes"].JObj?
            ==> r == Err(TypeError)
    ensures device.JObj? && "attributes" in device.fields && device.fields["attributes"].JObj?
            && attribute !in device.fields["attributes"].fields
            ==> r == Err(KeyError(attribute))
  {
    match Subscript(device, "attributes")
    case Err(e) => Err(e)
    case Ok(attributes) => Subscript(attributes, attribute)
  }

  /** The condition of a filter on one device. The attribute is read only when
      the type matches (Python's `and` short-circuits), so a device of another
      type never fails on its attributes, while a matching device that lacks
      the attribute raises. `not in` raises exactly when `in` does. */
  function Test(c: Criterion, device: Json): (r: Result<bool>)
    ensures TypeMatches(device, c.deviceType).Err? ==> r == Err(TypeMatches(device, c.deviceType).error)
    ensures TypeMatches(device, c.deviceType) == Ok(false) ==> r == Ok(false)
    ensures c.OfType? ==> r == TypeMatches(device, c.deviceType)
    ensures !c.OfType? && TypeMatches(device, c.deviceType) == Ok(true) && AttributeOf(device, c.attribute).Err?
            ==> r == Err(AttributeOf(device, c.attribute).error)
    ensures c.AttributeEquals? && TypeMatches(device, c.deviceType) == Ok(true) && AttributeOf(device, c.attribute).Ok?
            ==> r == Ok(AttributeOf(device, c.attribute).value == c.values)
    ensures c.AttributeIn? && TypeMatches(device, c.deviceType) == Ok(true) && AttributeOf(device, c.attribute).Ok?
            ==> r == Contains(c.values, AttributeOf(device, c.attribute).value)
    ensures c.AttributeNotIn? && TypeMatches(device, c.deviceType) == Ok(true) && AttributeOf(device, c.attribute).Ok?
            ==> var found := Contains(c.values, AttributeOf(device, c.attribute).value);
                r == if found.Ok? then Ok(!found.value) else found
  {
    match TypeMatches(device, c.deviceType)
    case Err(e) => Err(e)
    case Ok(matches) =>
      if !matches then Ok(false)
      else if c.OfType? then Ok(true)
      else
        match AttributeOf(device, c.attribute)
        case Err(e) => Err(e)
        case Ok(x) =>
          match c
          case AttributeEquals(_, _, v) => Ok(x == v)
          case AttributeIn(_, _, vs) => Contains(vs, x)
          case AttributeNotIn(_, _, vs) =>
            (match Contains(vs, x)
             case Ok(found) => Ok(!found)
             case Err(e) => Err(e))
  }

  /** The list comprehension `[d for d in devices if <c>]`. */
  function Select(devices: seq<Json>, c: Criterion): (r: Result<seq<Json>>)
    ensures r.Ok? <==> forall i :: 0 <= i < |devices| ==> Test(c, devices[i]).Ok?
    ensures r.Ok? ==> |r.value| <= |devices|
    decreases |devices|
  {
    if devices == [] then Ok([])
    else
      match Test(c, devices[0])
      case Err(e) => Err(e)
      case Ok(keep) =>
        match Select(devices[1..], c)
        case Err(e) => Err(e)
        case Ok(rest) => Ok(if keep then [devices[0]] + rest else rest)
  }

  /** A filter applied to whatever `get_all_devices` returned. */
  function FilterDevices(fetched: Json, c: Criterion): (r: Result<seq<Json>>)
    ensures Elements(fetched).Err? ==> r == Err(TypeError)
    ensures !fetched.JArr? && Elements(fetched).Ok? ==> r == Ok([])
    ensures fetched.JArr? ==> (r.Ok? <==> forall i :: 0 <= i < |fetched.items| ==> Test(c, fetched.items[i]).Ok?)
    ensures fetched.JArr? && r.Ok? ==> IsSubseq(r.value, fetched.items)
    ensures fetched.JArr? ==> r == Select(fetched.items, c)
  {
    match Elements(fetched)
    case Err(e) => Err(e)
    case Ok(devices) =>
      SelectKeepsExactly(devices, c);
      Select(devices, c)
  }

  /** `a` is `b` with some elements left out: the order of `a` is the order of `b`. */
  predicate IsSubseq(a: seq<Json>, b: seq<Json>)
    decreases |b|
  {
    a == [] || (b != [] && ((a[0] == b[0] && IsSubseq(a[1..], b[1..])) || IsSubseq(a, b[1..])))
  }

  /** A filter fails exactly when the condition fails on some device, and then
      with the exception of the first device on which it fails. */
  lemma {:induction false} SelectFailsAtFirstFault(devices: seq<Json>, c: Criterion)
    ensures Select(devices, c).Ok? <==> forall i :: 0 <= i < |devices| ==> Test(c, devices[i]).Ok?
    ensures Select(devices, c).Err? ==>
      exists i :: 0 <= i < |devices| && Test(c, devices[i]) == Err(Select(devices, c).error)
                  && forall j :: 0 <= j < i ==> Test(c, devices[j]).Ok?
  {
    if devices != [] {
      SelectFailsAtFirstFault(devices[1..], c);
      var r := Select(devices, c);
      if Test(c, devices[0]).Ok? && r.Err? {
        var i :| 0 <= i < |devices[1..]| && Test(c, devices[1..][i]) == Err(r.error)
                 && forall j :: 0 <= j < i ==> Test(c, devices[1..][j]).Ok?;
        assert Test(c, devices[i + 1]) == Err(r.error);
        assert forall j :: 0 <= j < i + 1 ==> Test(c, devices[j]).Ok? by {
          forall j | 0 <= j < i + 1 ensures Test(c, devices[j]).Ok? {
            if j > 0 { assert devices[j] == devices[1..][j - 1]; }
          }
        }
      }
      if r.Ok? {
        forall i | 0 <= i < |devices| ensures Test(c, devices[i]).Ok? {
          if i > 0 { assert devices[i] == devices[1..][i - 1]; }
        }
      }
    }
  }

  /** A successful filter keeps exactly the devices whose condition holds, every
      copy of each, and keeps them in their original order. */
  lemma {:induction false} SelectKeepsExactly(devices: seq<Json>, c: Criterion)
    ensures Select(devices, c).Ok? ==> IsSubseq(Select(devices, c).value, devices)
    ensures Select(devices, c).Ok? ==>
      forall d :: multiset(Select(devices, c).value)[d]
                  == if Test(c, d) == Ok(true) then multiset(devices)[d] else 0
  {
    if devices != [] {
      SelectKeepsExactly(devices[1..], c);
      assert devices == [devices[0]] + devices[1..];
    }
  }

  /** The type filter on records that all carry a string `entity_id`: it
      succeeds, and keeps, in order, exactly the records whose `entity_id`
      starts with the given string. */
  lemma TypeFilterExact(devices: seq<Json>, deviceType: string)
    requires forall d | d in devices :: d.JObj? && "entity_id" in d.fields && d.fields["entity_id"].JStr?
    ensures Select(devices, OfType(deviceType)).Ok?
    ensures IsSubseq(Select(devices, OfType(deviceType)).value, devices)
    ensures forall d | d in devices ::
      multiset(Select(devices, OfType(deviceType)).value)[d]
        == if StartsWith(d.fields["entity_id"].s, deviceType) then multiset(devices)[d] else 0
  {
    SelectFailsAtFirstFault(devices, OfType(deviceType));
    SelectKeepsExactly(devices, OfType(deviceType));
  }

  /** Device records as the hub reports them: each has a string `entity_id`,
      and each whose id starts with `deviceType` holds `attribute` among its
      `attributes`. */
  predicate Attributed(devices: seq<Json>, deviceType: string, attribute: string)
  {
    forall d | d in devices ::
      && d.JObj? && "entity_id" in d.fields && d.fields["entity_id"].JStr?
      && (StartsWith(d.fields["entity_id"].s, deviceType) ==>
            "attributes" in d.fields && d.fields["attributes"].JObj?
            && attribute in d.fields["attributes"].fields)
  }

  /** The `==` filter on such records succeeds, and keeps, in order, exactly
      the type-matching records whose attribute equals `value`. */
  lemma AttributeEqualsExact(devices: seq<Json>, deviceType: string, attribute: string, value: Json)
    requires Attributed(devices, deviceType, attribute)
    ensures Select(devices, AttributeEquals(deviceType, attribute, value)).Ok?
    ensures IsSubseq(Select(devices, AttributeEquals(deviceType, attribute, value)).value, devices)
    ensures forall d | d in devices ::
      multiset(Select(devices, AttributeEquals(deviceType, attribute, value)).value)[d]
        == if StartsWith(d.fields["entity_id"].s, deviceType)
              && d.fields["attributes"].fields[attribute] == value
           then multiset(devices)[d] else 0
  {
    SelectFailsAtFirstFault(devices, AttributeEquals(deviceType, attribute, value));
    SelectKeepsExactly(devices, AttributeEquals(deviceType, attribute, value));
  }

  /** The `in` filter with a list on such records succeeds, and keeps, in
      order, exactly the type-matching records whose attribute is one of the
      list's items. */
  lemma AttributeInExact(devices: seq<Json>, deviceType: string, attribute: string, values: seq<Json>)
    requires Attributed(devices, deviceType, attribute)
    ensures Select(devices, AttributeIn(deviceType, attribute, JArr(values))).Ok?
    ensures IsSubseq(Select(devices, AttributeIn(deviceType, attribute, JArr(values))).value, devices)
    ensures forall d | d in devices ::
      multiset(Select(devices, AttributeIn(deviceType, attribute, JArr(values))).value)[d]
        == if StartsWith(d.fields["entity_id"].s, deviceType)
              && d.fields["attributes"].fields[attribute] in values
           then multiset(devices)[d] else 0
  {
    SelectFailsAtFirstFault(devices, AttributeIn(deviceType, attribute, JArr(values)));
    SelectKeepsExactly(devices, AttributeIn(deviceType, attribute, JArr(values)));
  }

  /** The `not in` filter with a list on such records succeeds, and keeps, in
      order, exactly the type-matching records whose attribute is none of the
      list's items. */
  lemma AttributeNotInExact(devices: seq<Json>, deviceType: string, attribute: string, values: seq<Json>)
    requires Attributed(devices, deviceType, attribute)
    ensures Select(devices, AttributeNotIn(deviceType, attribute, JArr(values))).Ok?
    ensures IsSubseq(Select(devices, AttributeNotIn(deviceType, attribute, JArr(values))).value, devices)
    ensures forall d | d in devices ::
      multiset(Select(devices, AttributeNotIn(deviceType, attribute, JArr(values))).value)[d]
        == if StartsWith(d.fields["entity_id"].s, deviceType)
              && d.fields["attributes"].fields[attribute] !in values
           then multiset(devices)[d] else 0
  {
    SelectFailsAtFirstFault(devices, AttributeNotIn(deviceType, attribute, JArr(values)));
    SelectKeepsExactly(devices, AttributeNotIn(deviceType, attribute, JArr(values)));
  }

  /** Every device whose domain (the part of its id before the first `.`) is
      the given type passes the type filter. */
  lemma DomainMatchPasses(deviceType: string, slug: string, device: Json)
    requires device.JObj? && "entity_id" in device.fields
    requires device.fields["entity_id"] == JStr(deviceType + "." + slug)
    ensures Test(OfType(deviceType), device) == Ok(true)
  {
  }

  /** The converse does not hold: the test is a string prefix, not a split on
      `.`, so a `light` filter also keeps a `lightning` entity. */
  lemma PrefixIsNotDomain()
    ensures Test(OfType("light"), JObj(map["entity_id" := JStr("lightning.strike")])) == Ok(true)
  {
  }

  /** On one device, the `in` and `not in` conditions fail together and with
      the same exception; when they succeed, the type matches exactly when one
      of them holds, and they never both hold. */
  lemma InNotInOnDevice(device: Json, deviceType: string, attribute: string, values: Json)
    ensures Test(AttributeIn(deviceType, attribute, values), device).Ok?
            <==> Test(AttributeNotIn(deviceType, attribute, values), device).Ok?
    ensures Test(AttributeIn(deviceType, attribute, values), device).Err? ==>
            Test(AttributeIn(deviceType, attribute, values), device)
            == Test(AttributeNotIn(deviceType, attribute, values), device)
    ensures Test(AttributeIn(deviceType, attribute, values), device).Ok? ==>
      var kept := Test(AttributeIn(deviceType, attribute, values), device).value;
      var dropped := Test(AttributeNotIn(deviceType, attribute, values), device).value;
      Test(OfType(deviceType), device) == Ok(kept || dropped) && !(kept && dropped)
  {
  }

  /** The `in` and `not in` filters with the same type, attribute and values
      fail together and with the same exception; when they succeed, so does
      the type filter, and together they hold every type-matching device once
      per copy, each in the order of the type filter. */
  lemma {:induction false} InNotInPartition(devices: seq<Json>, deviceType: string, attribute: string, values: Json)
    ensures Select(devices, AttributeIn(deviceType, attribute, values)).Ok?
            <==> Select(devices, AttributeNotIn(deviceType, attribute, values)).Ok?
    ensures Select(devices, AttributeIn(deviceType, attribute, values)).Err? ==>
            Select(devices, AttributeIn(deviceType, attribute, values))
            == Select(devices, AttributeNotIn(deviceType, attribute, values))
    ensures Select(devices, AttributeIn(deviceType, attribute, values)).Ok? ==>
      var kept := Select(devices, AttributeIn(deviceType, attribute, values)).value;
      var dropped := Select(devices, AttributeNotIn(deviceType, attribute, values)).value;
      var typed := Select(devices, OfType(deviceType));
      && typed.Ok?
      && multiset(kept) + multiset(dropped) == multiset(typed.value)
      && IsSubseq(kept, typed.value)
      && IsSubseq(dropped, typed.value)
  {
    var inC, outC, typeC := AttributeIn(deviceType, attribute, values),
                            AttributeNotIn(deviceType, attribute, values), OfType(deviceType);
    if devices != [] {
      var d, rest := devices[0], devices[1..];
      InNotInPartition(rest, deviceType, attribute, values);
      InNotInOnDevice(d, deviceType, attribute, values);
      var keptHere, droppedHere := Test(inC, d), Test(outC, d);
      if keptHere.Ok? && Select(rest, inC).Ok? {
        var k, o, ty := Select(rest, inC).value, Select(rest, outC).value, Select(rest, typeC).value;
        if keptHere.value {
          assert Select(devices, inC).value == [d] + k;
          assert Select(devices, outC).value == o;
          assert Select(devices, typeC).value == [d] + ty;
          assert multiset([d] + k) + multiset(o) == multiset([d] + ty);
        } else if droppedHere.value {
          assert Select(devices, inC).value == k;
          assert Select(devices, outC).value == [d] + o;
          assert Select(devices, typeC).value == [d] + ty;
          assert multiset(k) + multiset([d] + o) == multiset([d] + ty);
        } else {
          assert Select(devices, typeC).value == ty;
        }
      }
    }
  }

  /** No device is kept by both the `in` and the `not in` filter. */
  lemma InNotInDisjoint(devices: seq<Json>, deviceType: string, attribute: string, values: Json)
    requires Select(devices, AttributeIn(deviceType, attribute, values)).Ok?
    requires Select(devices, AttributeNotIn(deviceType, attribute, values)).Ok?
    ensures forall d :: d in Select(devices, AttributeIn(deviceType, attribute, values)).value
                        ==> d !in Select(devices, AttributeNotIn(deviceType, attribute, values)).value
  {
    var inC, outC := AttributeIn(deviceType, attribute, values), AttributeNotIn(deviceType, attribute, values);
    var kept, dropped := Select(devices, inC).value, Select(devices, outC).value;
    SelectKeepsExactly(devices, inC);
    SelectKeepsExactly(devices, outC);
    forall d | d in kept ensures d !in dropped {
      assert multiset(kept)[d] > 0;
      InNotInOnDevice(d, deviceType, attribute, values);
    }
  }

  /** The `==` filter is the `in` filter with the one-element list `[value]`. */
  lemma {:induction false} EqualsIsInSingleton(devices: seq<Json>, deviceType: string, attribute: string, value: Json)
    ensures Select(devices, AttributeEquals(deviceType, attribute, value))
            == Select(devices, AttributeIn(deviceType, attribute, JArr([value])))
  {
    if devices != [] {
      EqualsIsInSingleton(devices[1..], deviceType, attribute, value);
    }
  }
}
