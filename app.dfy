/** app.py, the chat endpoint's last step: every result row is turned into
    an item with standardised keys for the frontend, taking for each
    standardised key the first of its candidate columns the row has, and is
    tagged as a result, an event or unknown. */
module App {
  import opened Wrappers
  import opened Rows

  /** key_mapping: each standardised key with its candidate columns, in
      priority order, in the order the source lists them. */
  const KeyMapping: seq<(string, seq<string>)> := [
    ("id", ["event_id", "result_id"]),
    ("name", ["name", "event_name"]),
    ("description", ["description", "event_description"]),
    ("location", ["location"]),
    ("start_date", ["start_date"]),
    ("end_date", ["end_date"]),
    ("quantity_now", ["quantity_now"]),
    ("max_quantity", ["max_quantity"]),
    ("image", ["image", "event_image"]),
    ("organization_name", ["username", "organization_name"]),
    ("result_id", ["result_id"]),
    ("result_description", ["content", "result_description"]),
    ("result_image", ["images", "result_image"]),
    ("related_event_id", ["event_id"]),
    ("related_event_name", ["name", "event_name"]),
    ("related_event_description", ["description", "event_description"]),
    ("related_event_image", ["image", "event_image"])
  ]

  /** A dict's key order lists exactly its keys. */
  ghost predicate WellFormed(d: Row)
  {
    forall k :: k in d.values <==> k in d.keys
  }

  /** `d[key] = value` on a dict: a new key goes last, an existing one
      keeps its place. */
  function Put(d: Row, key: string, value: Value): (r: Row)
    ensures r.values == d.values[key := value]
    ensures key in d.values ==> r.keys == d.keys
    ensures key !in d.values ==> r.keys == d.keys + [key]
    ensures WellFormed(d) ==> WellFormed(r)
  {
    Row(if key in d.values then d.keys else d.keys + [key], d.values[key := value])
  }

  /** The first candidate column the row has, if any. */
  function FirstPresent(row: Row, candidates: seq<string>): (r: Option<string>)
    ensures r.Some? ==> r.value in candidates && r.value in row.values
    ensures r.None? <==> forall k :: k in candidates ==> k !in row.values
  {
    if candidates == [] then None
    else if candidates[0] in row.values then Some(candidates[0])
    else FirstPresent(row, candidates[1..])
  }

  /** A datetime is passed on in ISO 8601 form, with a 'T' between date and
      time; every other value as it is. */
  function Standardized(v: Value): (r: Value)
    ensures !r.DateTime?
  {
    if v.DateTime? then Scalar(v.date + "T" + v.time) else v
  }

  /** The item built from the entries of `mapping`, before the type tag. */
  function Standardize(row: Row, mapping: seq<(string, seq<string>)>): (item: Row)
    ensures WellFormed(item)
    ensures forall k :: k in item.values ==> !item.values[k].DateTime?
  {
    if mapping == [] then Row([], map[])
    else
      var item := Standardize(row, mapping[..|mapping| - 1]);
      var (key, candidates) := mapping[|mapping| - 1];
      match FirstPresent(row, candidates)
      case None => item
      case Some(rawKey) => Put(item, key, Standardized(row.values[rawKey]))
  }

  /** The type tag: 'result' when the row or the item has a result id, else
      'event' when the row has an event id or the item an id, else
      'unknown'. */
  function TypeTag(row: Row, item: Row): string
  {
    if "result_id" in row.values || ("result_id" in item.values && !item.values["result_id"].Null?) then "result"
    else if "event_id" in row.values || ("id" in item.values && !item.values["id"].Null?) then "event"
    else "unknown"
  }

  /** The item the endpoint sends for one row. */
  function StandardItem(row: Row): Row
  {
    var item := Standardize(row, KeyMapping);
    Put(item, "type", Scalar(TypeTag(row, item)))
  }

  /** The loops that build query_results_data from the raw rows. */
  method StandardizeRows(rawResultsList: seq<Row>) returns (queryResultsData: seq<Row>)
    ensures |queryResultsData| == |rawResultsList|
    ensures forall i :: 0 <= i < |rawResultsList| ==> queryResultsData[i] == StandardItem(rawResultsList[i])
  {
    queryResultsData := [];
    for r := 0 to |rawResultsList|
      invariant |queryResultsData| == r
      invariant forall i :: 0 <= i < r ==> queryResultsData[i] == StandardItem(rawResultsList[i])
    {
      var row := rawResultsList[r];
      var itemDataStandardized := Row([], map[]);
      for m := 0 to |KeyMapping|
        invariant itemDataStandardized == Standardize(row, KeyMapping[..m])
      {
        var (standardizedKey, possibleRawKeys) := KeyMapping[m];
        assert KeyMapping[..m + 1][..m] == KeyMapping[..m];
        var found := PickCandidate(row, possibleRawKeys);
        if found.Some? {
          itemDataStandardized := Put(itemDataStandardized, standardizedKey, Standardized(row.values[found.value]));
        }
      }
      assert KeyMapping[..|KeyMapping|] == KeyMapping;
      var tag := TypeTag(row, itemDataStandardized);
      itemDataStandardized := Put(itemDataStandardized, "type", Scalar(tag));
      if |itemDataStandardized.keys| > 0 {
        queryResultsData := queryResultsData + [itemDataStandardized];
      }
    }
  }

  /** The innermost loop: the first candidate column present in the row,
      left with `break`. */
  method PickCandidate(row: Row, possibleRawKeys: seq<string>) returns (found: Option<string>)
    ensures found == FirstPresent(row, possibleRawKeys)
  {
    found := None;
    for c := 0 to |possibleRawKeys|
      invariant FirstPresent(row, possibleRawKeys) == FirstPresent(row, possibleRawKeys[c..])
    {
      if possibleRawKeys[c] in row.values {
        return Some(possibleRawKeys[c]);
      }
      assert possibleRawKeys[c..][1..] == possibleRawKeys[c + 1..];
    }
  }

  // ---------------------------------------------------------------------
  // Properties of the standardised item

  /** The chosen column is the first candidate the row has: every
      candidate before it is missing. */
  lemma {:induction false} FirstPresentIsFirst(row: Row, candidates: seq<string>, k: string)
    ensures FirstPresent(row, candidates) == Some(k) <==>
      exists i :: 0 <= i < |candidates| && candidates[i] == k && k in row.values
        && forall j :: 0 <= j < i ==> candidates[j] !in row.values
  {
    if candidates != [] {
      FirstPresentIsFirst(row, candidates[1..], k);
      if FirstPresent(row, candidates) == Some(k) && candidates[0] !in row.values {
        var i :| 0 <= i < |candidates[1..]| && candidates[1..][i] == k && k in row.values
          && forall j :: 0 <= j < i ==> candidates[1..][j] !in row.values;
        assert candidates[i + 1] == k;
        assert forall j :: 0 <= j < i + 1 ==> candidates[j] !in row.values by {
          forall j | 0 <= j < i + 1 ensures candidates[j] !in row.values {
            if j > 0 { assert candidates[j] == candidates[1..][j - 1]; }
          }
        }
      }
      if exists i :: 0 <= i < |candidates| && candidates[i] == k && k in row.values
           && forall j :: 0 <= j < i ==> candidates[j] !in row.values {
        var i :| 0 <= i < |candidates| && candidates[i] == k && k in row.values
          && forall j :: 0 <= j < i ==> candidates[j] !in row.values;
        if i > 0 {
          assert candidates[1..][i - 1] == k;
          assert forall j :: 0 <= j < i - 1 ==> candidates[1..][j] !in row.values by {
            forall j | 0 <= j < i - 1 ensures candidates[1..][j] !in row.values {
              assert candidates[1..][j] == candidates[j + 1];
            }
          }
        }
      }
    }
  }

  /** A standardised key is in the item exactly when one of its mapping
      entries found a column in the row. */
  lemma {:induction false} StandardizeMembers(row: Row, mapping: seq<(string, seq<string>)>, k: string)
    ensures k in Standardize(row, mapping).values <==>
      exists i :: 0 <= i < |mapping| && mapping[i].0 == k && FirstPresent(row, mapping[i].1).Some?
  {
    if mapping != [] {
      var init := mapping[..|mapping| - 1];
      StandardizeMembers(row, init, k);
      if exists i :: 0 <= i < |init| && init[i].0 == k && FirstPresent(row, init[i].1).Some? {
        var i :| 0 <= i < |init| && init[i].0 == k && FirstPresent(row, init[i].1).Some?;
        assert mapping[i] == init[i];
      }
      if exists i :: 0 <= i < |mapping| && mapping[i].0 == k && FirstPresent(row, mapping[i].1).Some? {
        var i :| 0 <= i < |mapping| && mapping[i].0 == k && FirstPresent(row, mapping[i].1).Some?;
        if i < |init| {
          assert init[i] == mapping[i];
        }
      }
    }
  }

  /** The item has the type tag and otherwise only standardised keys. */
  lemma StandardItemKeys(row: Row, k: string)
    ensures "type" in StandardItem(row).values
    ensures k in StandardItem(row).values ==> k == "type" || exists i :: 0 <= i < |KeyMapping| && KeyMapping[i].0 == k
  {
    StandardizeMembers(row, KeyMapping, k);
  }

  /** Only the mapping entry "result_id" carries that key, and it reads
      the column of the same name; likewise "id" reads an event id or a
      result id. */
  lemma KeyMappingEntries(i: nat)
    requires i < |KeyMapping|
    ensures KeyMapping[i].0 == "result_id" ==> KeyMapping[i].1 == ["result_id"]
    ensures KeyMapping[i].0 == "id" ==> KeyMapping[i].1 == ["event_id", "result_id"]
    ensures KeyMapping[i].0 != "type"
  {
  }

  /** The type tag depends on the row's columns alone: 'result' exactly
      when it has a result id, 'event' exactly when it has an event id but
      no result id, and 'unknown' otherwise. */
  lemma StandardItemType(row: Row)
    ensures StandardItem(row).values["type"] ==
      Scalar(if "result_id" in row.values then "result"
             else if "event_id" in row.values then "event"
             else "unknown")
  {
    var item := Standardize(row, KeyMapping);
    StandardizeMembers(row, KeyMapping, "result_id");
    StandardizeMembers(row, KeyMapping, "id");
    if "result_id" in item.values {
      var i :| 0 <= i < |KeyMapping| && KeyMapping[i].0 == "result_id" && FirstPresent(row, KeyMapping[i].1).Some?;
      KeyMappingEntries(i);
    }
    if "id" in item.values && "result_id" !in row.values {
      var i :| 0 <= i < |KeyMapping| && KeyMapping[i].0 == "id" && FirstPresent(row, KeyMapping[i].1).Some?;
      KeyMappingEntries(i);
    }
  }

  /** No standardised key appears twice in the mapping. */
  ghost predicate DistinctKeys(mapping: seq<(string, seq<string>)>)
  {
    forall i, j :: 0 <= i < j < |mapping| ==> mapping[i].0 != mapping[j].0
  }

  lemma KeyMappingDistinct()
    ensures DistinctKeys(KeyMapping)
  {
  }

  /** With distinct keys, each standardised value is the value of the
      first candidate column the row has, converted. */
  lemma {:induction false} StandardizeValue(row: Row, mapping: seq<(string, seq<string>)>, i: nat, rawKey: string)
    requires DistinctKeys(mapping)
    requires i < |mapping| && FirstPresent(row, mapping[i].1) == Some(rawKey)
    ensures mapping[i].0 in Standardize(row, mapping).values
    ensures Standardize(row, mapping).values[mapping[i].0] == Standardized(row.values[rawKey])
  {
    var init := mapping[..|mapping| - 1];
    if i < |init| {
      assert init[i] == mapping[i];
      StandardizeValue(row, init, i, rawKey);
      assert mapping[|mapping| - 1].0 != mapping[i].0;
    }
  }

  /** The item's value under a standardised key is that of the first
      candidate column the row has. */
  lemma StandardItemValue(row: Row, i: nat, rawKey: string)
    requires i < |KeyMapping| && FirstPresent(row, KeyMapping[i].1) == Some(rawKey)
    ensures KeyMapping[i].0 in StandardItem(row).values
    ensures StandardItem(row).values[KeyMapping[i].0] == Standardized(row.values[rawKey])
  {
    KeyMappingDistinct();
    KeyMappingEntries(i);
    StandardizeValue(row, KeyMapping, i, rawKey);
  }
}
