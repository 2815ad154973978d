/**
 * The CSV projection of the exporter tool: a device row becomes one CSV
 * record, either all five columns as stored (`RawExporter`, `Device`) or
 * the first four followed by values picked out of the JSON user info along
 * dotted paths (`FieldExporter`).
 */
module Exporter {
  import opened Wrappers

  /** A decoded JSON value (`interface{}` after `json.Unmarshal`). */
  datatype Json =
    | JNull
    | JBool(b: bool)
    | JNumber(text: string)
    | JString(str: string)
    | JArray(items: seq<Json>)
    | JObject(fields: map<string, Json>)

  /** The five columns of a device, in table order. */
  function Columns(d: Device): (record: seq<string>)
    ensures |record| == 5
  {
    [d.token, d.vendor, d.appID, d.language, d.userInfo]
  }

  /** Reads a five-column record back as a device. */
  function DeviceOf(record: seq<string>): Option<Device> {
    if |record| == 5 then Some(Device(record[0], record[1], record[2], record[3], record[4])) else None
  }

  /** `Columns` loses nothing: it is a bijection between devices and five-column records. */
  lemma ColumnsRoundTrip(d: Device, record: seq<string>)
    ensures DeviceOf(Columns(d)) == Some(d)
    ensures DeviceOf(record).Some? ==> Columns(DeviceOf(record).value) == record
  {
  }

  /** A row of the `devices` table as the exporter reads it. */
  datatype Device = Device(token: string, vendor: string, appID: string, language: string, userInfo: string)
  {
    /** `Device.ToCSV`: the five fields, appended in order. */
    method ToCSV() returns (record: seq<string>)
      ensures |record| == 5 && DeviceOf(record) == Some(this)
    {
      record := [];
      record := record + [token];
      record := record + [vendor];
      record := record + [appID];
      record := record + [language];
      record := record + [userInfo];
    }
  }

  /** `RawExporter`: exports the user info as the stored string. */
  datatype RawExporter = RawExporter
  {
    method ToCSV(d: Device) returns (record: seq<string>)
      ensures |record| == 5 && DeviceOf(record) == Some(d)
    {
      record := [];
      record := record + [d.token];
      record := record + [d.vendor];
      record := record + [d.appID];
      record := record + [d.language];
      record := record + [d.userInfo];
    }
  }

  /**
   * The value reached from `j` by following the keys of `path` through
   * nested objects, if every step finds an object holding the key.
   */
  function LookupIn(path: seq<string>, j: Json): Option<Json>
    decreases |path|
  {
    if path == [] then Some(j)
    else if j.JObject? && path[0] in j.fields then LookupIn(path[1..], j.fields[path[0]])
    else None
  }

  /** The string stored at `path` in `info`, or "" when there is none. */
  function StringAt(path: seq<string>, info: map<string, Json>): string {
    match LookupIn(path, JObject(info))
    case Some(JString(s)) => s
    case _ => ""
  }

  /**
   * The four cases in which the exporter writes "": an empty path, a
   * missing key, a non-object on the way, and a non-string at the end.
   */
  lemma StringAtEmptyCases(path: seq<string>, info: map<string, Json>, k: nat)
    ensures path == [] ==> StringAt(path, info) == ""
    ensures k < |path| && path[..k] != [] ==> (LookupIn(path[..k], JObject(info)).None? ==> StringAt(path, info) == "")
    ensures k + 1 < |path| ==> (LookupIn(path[..k + 1], JObject(info)).Some? && !LookupIn(path[..k + 1], JObject(info)).value.JObject?
                                ==> StringAt(path, info) == "")
    ensures path != [] && !(LookupIn(path, JObject(info)).Some? && LookupIn(path, JObject(info)).value.JString?)
            ==> StringAt(path, info) == ""
  {
    if k < |path| && path[..k] != [] && LookupIn(path[..k], JObject(info)).None? {
      LookupPrefix(path, k, JObject(info));
    }
    if k + 1 < |path| && LookupIn(path[..k + 1], JObject(info)).Some? && !LookupIn(path[..k + 1], JObject(info)).value.JObject? {
      LookupPrefix(path, k + 1, JObject(info));
      assert LookupIn(path[k + 1..], LookupIn(path[..k + 1], JObject(info)).value).None?;
    }
  }

  /** Following a path is following its first `k` keys, then the rest. */
  lemma {:induction false} LookupPrefix(path: seq<string>, k: nat, j: Json)
    requires k <= |path|
    ensures LookupIn(path, j) ==
              match LookupIn(path[..k], j)
              case None => None
              case Some(v) => LookupIn(path[k..], v)
    decreases k
  {
    if k > 0 {
      if j.JObject? && path[0] in j.fields {
        LookupPrefix(path[1..], k - 1, j.fields[path[0]]);
        assert path[1..][..k - 1] == path[..k][1..];
        assert path[1..][k - 1..] == path[k..];
      }
    }
  }

  /** `findValueAtPath` as an ordinary recursion: one key per step. */
  lemma StringAtStep(name: string, rest: seq<string>, info: map<string, Json>)
    ensures StringAt([name] + rest, info) ==
              if name !in info then ""
              else if rest == [] then (if info[name].JString? then info[name].str else "")
              else if info[name].JObject? then StringAt(rest, info[name].fields)
              else ""
  {
    var path := [name] + rest;
    assert path[0] == name && path[1..] == rest;
    if name in info {
      assert LookupIn(path, JObject(info)) == LookupIn(rest, info[name]);
      if rest != [] && !info[name].JObject? {
        assert LookupIn(rest, info[name]).None?;
      }
    } else {
      assert LookupIn(path, JObject(info)).None?;
    }
  }

  /** `json.Unmarshal` of the user info into a `map[string]interface{}`: `null` leaves a nil (empty) map, anything but an object fails. */
  function UnmarshalObject(parsed: Option<Json>): Option<map<string, Json>> {
    match parsed
    case Some(JObject(m)) => Some(m)
    case Some(JNull) => Some(map[])
    case _ => None
  }

  /** `FieldExporter`: the export paths, each a list of keys. */
  datatype FieldExporter = FieldExporter(fields: seq<seq<string>>)
  {
    /**
     * `findValueAtPath`: walks `info` key by key, moving into nested objects,
     * and returns the string found at the last key, or "".
     */
    method FindValueAtPath(path: seq<string>, info: map<string, Json>) returns (v: string)
      ensures v == StringAt(path, info)
    {
      var m := info;
      var last := |path| - 1;
      var i := 0;
      while i < |path|
        invariant 0 <= i <= |path|
        invariant i < |path| ==> LookupIn(path, JObject(info)) == LookupIn(path[i..], JObject(m))
        invariant i == |path| ==> StringAt(path, info) == ""
      {
        var name := path[i];
        if i == last {
          if name in m && m[name].JString? {
            return m[name].str;
          }
        } else {
          if name in m && m[name].JObject? {
            assert path[i..][1..] == path[i + 1..];
            m := m[name].fields;
          } else {
            return "";
          }
        }
        i := i + 1;
      }
      return "";
    }

    /**
     * `FieldExporter.ToCSV`: token, vendor, app id and language, then, when
     * paths are configured and the user info is a JSON object or `null`,
     * one column per path (all "" for `null`). The raw user info is never a
     * column.
     */
    method ToCSV(r: Device, parsed: Option<Json>) returns (record: seq<string>)
      ensures |record| >= 4 && record[..4] == Columns(r)[..4]
      ensures fields == [] || UnmarshalObject(parsed).None? ==> |record| == 4
      ensures fields != [] && UnmarshalObject(parsed).Some? ==>
                |record| == 4 + |fields| &&
                forall i :: 0 <= i < |fields| ==> record[4 + i] == StringAt(fields[i], UnmarshalObject(parsed).value)
    {
      record := [];
      record := record + [r.token];
      record := record + [r.vendor];
      record := record + [r.appID];
      record := record + [r.language];
      if |fields| > 0 {
        var info := UnmarshalObject(parsed);
        if info.None? {
          return;
        }
        var k := 0;
        while k < |fields|
          invariant 0 <= k <= |fields|
          invariant |record| == 4 + k && record[..4] == Columns(r)[..4]
          invariant forall i :: 0 <= i < k ==> record[4 + i] == StringAt(fields[i], info.value)
        {
          var v := FindValueAtPath(fields[k], info.value);
          record := record + [v];
          k := k + 1;
        }
      }
    }
  }

  /** `strings.Split(s, string(sep))`: the pieces between separators; never empty. */
  function Split(s: string, sep: char): (parts: seq<string>)
    ensures |parts| >= 1
    decreases |s|
  {
    if s == [] then [""]
    else
      var rest := Split(s[1..], sep);
      if s[0] == sep then [""] + rest else [[s[0]] + rest[0]] + rest[1..]
  }

  /** `strings.Join(parts, string(sep))`. */
  function Join(parts: seq<string>, sep: char): string
    requires |parts| >= 1
    decreases |parts|
  {
    if |parts| == 1 then parts[0] else parts[0] + [sep] + Join(parts[1..], sep)
  }

  /** Putting a character in front of the first piece puts it in front of the joined text. */
  lemma JoinConsFirst(c: char, parts: seq<string>, sep: char)
    requires |parts| >= 1
    ensures Join([[c] + parts[0]] + parts[1..], sep) == [c] + Join(parts, sep)
  {
    var q := [[c] + parts[0]] + parts[1..];
    assert q[0] == [c] + parts[0] && q[1..] == parts[1..];
  }

  /** Splitting then joining gives back the path. */
  lemma {:induction false} SplitJoin(s: string, sep: char)
    ensures Join(Split(s, sep), sep) == s
    decreases |s|
  {
    if s != [] {
      var rest := Split(s[1..], sep);
      SplitJoin(s[1..], sep);
      if s[0] == sep {
        assert ([""] + rest)[1..] == rest;
      } else {
        JoinConsFirst(s[0], rest, sep);
      }
      assert s == [s[0]] + s[1..];
    }
  }

  /** No piece of a split holds the separator. */
  lemma {:induction false} SplitPiecesSeparatorFree(s: string, sep: char)
    ensures forall k :: 0 <= k < |Split(s, sep)| ==> sep !in Split(s, sep)[k]
    decreases |s|
  {
    if s != [] {
      var rest := Split(s[1..], sep);
      SplitPiecesSeparatorFree(s[1..], sep);
      var parts := Split(s, sep);
      if s[0] == sep {
        assert parts == [""] + rest;
        assert forall k :: 1 <= k < |parts| ==> parts[k] == rest[k - 1];
      } else {
        assert parts == [[s[0]] + rest[0]] + rest[1..];
        assert forall k :: 1 <= k < |parts| ==> parts[k] == rest[k];
      }
    }
  }

  /** Joining separator-free pieces then splitting gives the pieces back. */
  lemma {:induction false} JoinSplit(parts: seq<string>, sep: char)
    requires |parts| >= 1
    requires forall k :: 0 <= k < |parts| ==> sep !in parts[k]
    ensures Split(Join(parts, sep), sep) == parts
    decreases |parts|, |parts[0]|
  {
    if |parts[0]| > 0 {
      var p := [parts[0][1..]] + parts[1..];
      JoinSplit(p, sep);
      var s := Join(parts, sep);
      if |parts| == 1 {
        assert s[1..] == Join(p, sep);
      } else {
        assert s[1..] == Join(p, sep);
      }
      assert [parts[0][0]] + p[0] == parts[0];
    } else if |parts| > 1 {
      JoinSplit(parts[1..], sep);
      var s := Join(parts, sep);
      assert s == [sep] + Join(parts[1..], sep);
      assert s[1..] == Join(parts[1..], sep);
    }
  }

  /**
   * `NewFieldExporter` as written: it assigns `Fields[i]` of a slice that
   * was never allocated, which panics (None) on the first path.
   */
  method NewFieldExporterAsWritten(paths: seq<string>) returns (ex: Option<FieldExporter>)
    ensures ex.Some? <==> paths == []
    ensures ex.Some? ==> ex.value.fields == []
  {
    // `new(FieldExporter)` leaves `Fields` a nil slice of length 0.
    var fields: seq<seq<string>> := [];
    if |paths| > 0 {
      // The loop's first assignment, `Fields[0] = ...`, is out of range.
      return None;
    }
    return Some(FieldExporter(fields));
  }

  /** `NewFieldExporter` with the slice allocated to the number of paths: path `i` is split at '.'. */
  method NewFieldExporter(paths: seq<string>) returns (ex: FieldExporter)
    ensures |ex.fields| == |paths|
    ensures forall i :: 0 <= i < |paths| ==> ex.fields[i] == Split(paths[i], '.') && Join(ex.fields[i], '.') == paths[i]
  {
    var fields: seq<seq<string>> := seq(|paths|, _ => []);
    var i := 0;
    while i < |paths|
      invariant 0 <= i <= |paths| && |fields| == |paths|
      invariant forall k :: 0 <= k < i ==> fields[k] == Split(paths[k], '.') && Join(fields[k], '.') == paths[k]
    {
      fields := fields[i := Split(paths[i], '.')];
      SplitJoin(paths[i], '.');
      i := i + 1;
    }
    ex := FieldExporter(fields);
  }

  /** The exporter `main` installs. */
  datatype Choice = UseRaw(raw: RawExporter) | UseFields(fx: FieldExporter)

  /**
   * `main`'s selection as written: the raw exporter exactly when paths are
   * configured, otherwise a field exporter over no paths (so it never panics).
   */
  method SelectExporterAsWritten(paths: seq<string>) returns (ex: Option<Choice>)
    ensures ex.Some?
    ensures ex.value.UseRaw? <==> |paths| > 0
    ensures ex.value.UseFields? ==> ex.value.fx.fields == []
  {
    if |paths| > 0 {
      return Some(UseRaw(RawExporter));
    }
    var fx := NewFieldExporterAsWritten(paths);
    if fx.None? {
      return None;
    }
    return Some(UseFields(fx.value));
  }

  /** The selection the comment describes: fields when there are paths, raw otherwise. */
  method SelectExporter(paths: seq<string>) returns (ex: Choice)
    ensures ex.UseFields? <==> |paths| > 0
    ensures ex.UseFields? ==> (|ex.fx.fields| == |paths| &&
              forall i :: 0 <= i < |paths| ==> ex.fx.fields[i] == Split(paths[i], '.'))
  {
    if |paths| > 0 {
      var fx := NewFieldExporter(paths);
      return UseFields(fx);
    }
    return UseRaw(RawExporter);
  }

  /** One record as the tool writes it with `main`'s selection as written: configured paths never reach the output. */
  method ExportRecordAsWritten(paths: seq<string>, d: Device, parsed: Option<Json>) returns (record: seq<string>)
    ensures |paths| > 0 ==> DeviceOf(record) == Some(d)
    ensures |paths| == 0 ==> record == Columns(d)[..4]
  {
    var ex := SelectExporterAsWritten(paths);
    match ex.value
    case UseRaw(raw) =>
      record := raw.ToCSV(d);
    case UseFields(fx) =>
      record := fx.ToCSV(d, parsed);
  }

  /**
   * One record with the intended selection: with paths configured and an
   * object or `null` as user info, column `4 + i` is the string at path `i`
   * ("" throughout for `null`).
   */
  method ExportRecord(paths: seq<string>, d: Device, parsed: Option<Json>) returns (record: seq<string>)
    ensures |paths| == 0 ==> DeviceOf(record) == Some(d)
    ensures |paths| > 0 ==> |record| >= 4 && record[..4] == Columns(d)[..4]
    ensures |paths| > 0 && UnmarshalObject(parsed).None? ==> |record| == 4
    ensures |paths| > 0 && UnmarshalObject(parsed).Some? ==>
              |record| == 4 + |paths| &&
              forall i :: 0 <= i < |paths| ==> record[4 + i] == StringAt(Split(paths[i], '.'), UnmarshalObject(parsed).value)
  {
    var ex := SelectExporter(paths);
    match ex
    case UseRaw(raw) =>
      record := raw.ToCSV(d);
    case UseFields(fx) =>
      record := fx.ToCSV(d, parsed);
  }
}
