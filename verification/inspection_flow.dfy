/**
 * The multi-rack inspection form of src/pages/InspectionFlow.tsx: the rack
 * list, the open (expanded) racks, the device sections chosen per rack, the
 * flat field-value map keyed by `${fieldId}-${rackIndex}`, the found-issues
 * answer and the validation errors. The section schema is a parameter.
 */
module InspectionFlow {
  import opened Wrappers
  import opened Strings
  import opened Lists
  import opened Types

  /** A value stored in formData (typed `any` in the source); `Object` stands for any object or array. */
  datatype Value = Str(s: string) | Num(n: int) | Bool(b: bool) | Object | Null | Undefined

  /** JavaScript truthiness: '', 0, false, null and undefined count as missing. */
  predicate Truthy(v: Value) {
    match v
    case Str(s) => s != ""
    case Num(n) => n != 0
    case Bool(b) => b
    case Object => true
    case Null => false
    case Undefined => false
  }

  type FormData = map<string, Value>
  type Selection = map<nat, seq<string>>
  type Schema = seq<FormSection>

  /** `formData[key]`; a key never written reads as undefined. */
  function Lookup(data: FormData, key: string): Value {
    if key in data then data[key] else Undefined
  }

  /** `selectedDevices[rackIndex] || []`. */
  function SelectionOf(selected: Selection, rack: nat): seq<string> {
    if rack in selected then selected[rack] else []
  }

  // ---------------------------------------------------------------------
  // Field keys

  /** `${fieldId}-${rackIndex}`. */
  function FieldKey(fieldId: string, rack: nat): string {
    fieldId + "-" + Decimal(rack)
  }

  /** `-${rackIndex}`, the suffix removeRack matches keys against. */
  function RackSuffix(rack: nat): string {
    "-" + Decimal(rack)
  }

  function LastIndexOf(s: string, c: char): (r: Option<nat>)
    ensures r.Some? ==> r.value < |s| && s[r.value] == c && c !in s[r.value + 1..]
    ensures r.None? ==> c !in s
  {
    if s == [] then None
    else if s[|s| - 1] == c then Some(|s| - 1)
    else
      var r := LastIndexOf(s[..|s| - 1], c);
      assert r.Some? ==> s[r.value + 1..] == s[..|s| - 1][r.value + 1..] + [s[|s| - 1]];
      assert s == s[..|s| - 1] + [s[|s| - 1]];
      r
  }

  /** Reads a key back as (fieldId, rack): the rack is the canonical decimal after the last '-'. */
  function ParseKey(key: string): Option<(string, nat)> {
    match LastIndexOf(key, '-')
    case None => None
    case Some(i) =>
      var digits := key[i + 1..];
      if |digits| >= 1 && AllDigits(digits) && Decimal(ParseDecimal(digits)) == digits
      then Some((key[..i], ParseDecimal(digits)))
      else None
  }

  /** Every key handleFieldChange writes reads back as the field and rack it was built from. */
  lemma ParseFieldKey(fieldId: string, rack: nat)
    ensures ParseKey(FieldKey(fieldId, rack)) == Some((fieldId, rack))
  {
    var key := FieldKey(fieldId, rack);
    var d := Decimal(rack);
    var n := |fieldId|;
    assert key[n] == '-';
    assert key[n + 1..] == d;
    assert key[..n] == fieldId;
    match LastIndexOf(key, '-')
    case None =>
      assert false;
    case Some(i) =>
      if i != n {
        assert false;
      }
      ParseDecimalOfDecimal(rack);
  }

  /** ... and every key that parses is the key of what it parses to. */
  lemma FieldKeyOfParse(key: string)
    requires ParseKey(key).Some?
    ensures FieldKey(ParseKey(key).value.0, ParseKey(key).value.1) == key
  {
    var i := LastIndexOf(key, '-').value;
    assert key == key[..i] + "-" + key[i + 1..];
  }

  /**
   * A key built for rack `k` ends with "-" + decimal(r) exactly when k == r,
   * whatever the field id: the '-' before the digits cannot fall inside the
   * digits, and equal-length decimals of distinct numbers differ.
   */
  lemma RackSuffixIdentifiesRack(fieldId: string, k: nat, r: nat)
    ensures EndsWith(FieldKey(fieldId, k), RackSuffix(r)) <==> k == r
  {
    var key := FieldKey(fieldId, k);
    var suffix := RackSuffix(r);
    var dk, dr := Decimal(k), Decimal(r);
    var n := |fieldId|;
    if EndsWith(key, suffix) {
      var start := |key| - |suffix|;
      assert key[start..] == suffix;
      assert key[start] == '-';
      assert forall j :: n < j < |key| ==> key[j] == dk[j - n - 1];
      assert start <= n;
      assert key[n] == '-' == suffix[n - start];
      assert n == start;
      assert dk == key[n + 1..] == suffix[1..] == dr;
      DecimalInjective(k, r);
    }
  }

  /** removeRack(r) drops exactly the keys of rack r from a map of well-formed keys. */
  lemma PurgedKeysAreTheRacks(key: string, r: nat)
    requires ParseKey(key).Some?
    ensures EndsWith(key, RackSuffix(r)) <==> ParseKey(key).value.1 == r
  {
    FieldKeyOfParse(key);
    RackSuffixIdentifiesRack(ParseKey(key).value.0, ParseKey(key).value.1, r);
  }

  /**
   * The `forEach`/`delete` loop of removeRack: the copy of formData without
   * the keys ending in "-" + decimal(rack).
   */
  method PurgeRackKeys(data: FormData, rack: nat) returns (kept: FormData)
    ensures kept == map key | key in data && !EndsWith(key, RackSuffix(rack)) :: data[key]
  {
    var suffix := RackSuffix(rack);
    kept := data;
    var pending := data.Keys;
    while pending != {}
      invariant pending <= data.Keys
      invariant kept.Keys <= data.Keys
      invariant forall key :: key in pending ==> key in kept
      invariant forall key :: key in data && key !in pending ==> (key in kept <==> !EndsWith(key, suffix))
      invariant forall key :: key in kept ==> kept[key] == data[key]
      decreases pending
    {
      var key :| key in pending;
      if EndsWith(key, suffix) {
        kept := kept - {key};
      }
      pending := pending - {key};
    }
  }

  // ---------------------------------------------------------------------
  // Validation

  const NoAnswerMessage := "Please indicate whether you found issues"

  /** `Please select at least one device for Rack ${rackIndex + 1}`. */
  function NoDeviceMessage(rack: nat): string {
    "Please select at least one device for Rack " + Decimal(rack + 1)
  }

  /** `${field.label} for ${deviceId} in Rack ${rackIndex + 1} is required`. */
  function RequiredMessage(labelText: string, deviceId: string, rack: nat): string {
    labelText + " for " + deviceId + " in Rack " + Decimal(rack + 1) + " is required"
  }

  /** Position `i` holds the first section with this id. */
  predicate FirstWithId(sections: Schema, id: string, i: int) {
    0 <= i < |sections| && sections[i].id == id && forall j :: 0 <= j < i ==> sections[j].id != id
  }

  /** `formSections.find(section => section.id === deviceId)`: the first section with that id. */
  function FindSection(sections: Schema, id: string): (r: Option<FormSection>)
    ensures r.None? <==> forall i :: 0 <= i < |sections| ==> sections[i].id != id
    ensures r.Some? ==> r.value.id == id && r.value in sections
  {
    if sections == [] then None
    else if sections[0].id == id then Some(sections[0])
    else
      var r := FindSection(sections[1..], id);
      assert forall i :: 1 <= i < |sections| ==> sections[i] == sections[1..][i - 1];
      r
  }

  /** `find` returns the first section carrying the id. */
  lemma {:induction false} FindSectionIsFirst(sections: Schema, id: string)
    ensures FindSection(sections, id).Some? ==>
              exists i :: FirstWithId(sections, id, i) && FindSection(sections, id).value == sections[i]
  {
    if sections != [] && sections[0].id != id && FindSection(sections, id).Some? {
      FindSectionIsFirst(sections[1..], id);
      var i :| FirstWithId(sections[1..], id, i) && FindSection(sections[1..], id).value == sections[1..][i];
      assert FirstWithId(sections, id, i + 1);
    }
  }

  /** A required field whose stored value for this rack is falsy. */
  predicate MissingRequired(field: FormField, rack: nat, data: FormData) {
    field.required && !Truthy(Lookup(data, FieldKey(field.id, rack)))
  }

  /** The errors one section's fields contribute, in field order. */
  function FieldErrors(fields: seq<FormField>, deviceId: string, rack: nat, data: FormData): seq<string> {
    if fields == [] then []
    else
      (if MissingRequired(fields[0], rack, data) then [RequiredMessage(fields[0].labelText, deviceId, rack)] else [])
      + FieldErrors(fields[1..], deviceId, rack, data)
  }

  /** One selected device id: the fields of the first section with that id; an unknown id adds nothing. */
  function SectionErrors(deviceId: string, rack: nat, data: FormData, sections: Schema): seq<string> {
    match FindSection(sections, deviceId)
    case None => []
    case Some(section) => FieldErrors(section.fields, deviceId, rack, data)
  }

  /** The selected device ids of one rack, in selection order. */
  function DeviceErrors(deviceIds: seq<string>, rack: nat, data: FormData, sections: Schema): seq<string> {
    if deviceIds == [] then []
    else SectionErrors(deviceIds[0], rack, data, sections) + DeviceErrors(deviceIds[1..], rack, data, sections)
  }

  predicate HasSelection(selected: Selection, rack: nat) {
    rack in selected && |selected[rack]| > 0
  }

  function OneRackErrors(rack: nat, selected: Selection, data: FormData, sections: Schema): seq<string> {
    if !HasSelection(selected, rack) then [NoDeviceMessage(rack)]
    else DeviceErrors(selected[rack], rack, data, sections)
  }

  /** The error list validateForm builds when issues were found: racks in list order, duplicates included. */
  function RackErrors(racks: seq<nat>, selected: Selection, data: FormData, sections: Schema): seq<string> {
    if racks == [] then []
    else OneRackErrors(racks[0], selected, data, sections) + RackErrors(racks[1..], selected, data, sections)
  }

  lemma {:induction false} FieldErrorsAppend(a: seq<FormField>, b: seq<FormField>, deviceId: string, rack: nat, data: FormData)
    ensures FieldErrors(a + b, deviceId, rack, data) == FieldErrors(a, deviceId, rack, data) + FieldErrors(b, deviceId, rack, data)
  {
    if a == [] {
      assert a + b == b;
    } else {
      assert (a + b)[0] == a[0];
      assert (a + b)[1..] == a[1..] + b;
      FieldErrorsAppend(a[1..], b, deviceId, rack, data);
    }
  }

  lemma {:induction false} DeviceErrorsAppend(a: seq<string>, b: seq<string>, rack: nat, data: FormData, sections: Schema)
    ensures DeviceErrors(a + b, rack, data, sections) == DeviceErrors(a, rack, data, sections) + DeviceErrors(b, rack, data, sections)
  {
    if a == [] {
      assert a + b == b;
    } else {
      assert (a + b)[0] == a[0];
      assert (a + b)[1..] == a[1..] + b;
      DeviceErrorsAppend(a[1..], b, rack, data, sections);
    }
  }

  /** Racks are checked one after another: the errors of a concatenation are the concatenated errors. */
  lemma {:induction false} RackErrorsAppend(a: seq<nat>, b: seq<nat>, selected: Selection, data: FormData, sections: Schema)
    ensures RackErrors(a + b, selected, data, sections) == RackErrors(a, selected, data, sections) + RackErrors(b, selected, data, sections)
  {
    if a == [] {
      assert a + b == b;
    } else {
      assert (a + b)[0] == a[0];
      assert (a + b)[1..] == a[1..] + b;
      RackErrorsAppend(a[1..], b, selected, data, sections);
    }
  }

  /** The innermost `forEach`: one section's fields, pushing a message per missing required value. */
  method PushFieldErrors(newErrors: seq<string>, fields: seq<FormField>, deviceId: string, rack: nat, data: FormData)
    returns (pushed: seq<string>)
    ensures pushed == newErrors + FieldErrors(fields, deviceId, rack, data)
  {
    pushed := newErrors;
    var k := 0;
    while k < |fields|
      invariant 0 <= k <= |fields|
      invariant pushed == newErrors + FieldErrors(fields[..k], deviceId, rack, data)
    {
      var field := fields[k];
      if field.required && !Truthy(Lookup(data, FieldKey(field.id, rack))) {
        pushed := pushed + [RequiredMessage(field.labelText, deviceId, rack)];
      }
      FieldErrorsAppend(fields[..k], [field], deviceId, rack, data);
      assert fields[..k + 1] == fields[..k] + [field];
      k := k + 1;
    }
    assert fields[..k] == fields;
  }

  /** One selected id: `find(...)?.fields.forEach(...)`, so an id with no section pushes nothing. */
  method PushSectionErrors(newErrors: seq<string>, deviceId: string, rack: nat, data: FormData, sections: Schema)
    returns (pushed: seq<string>)
    ensures pushed == newErrors + SectionErrors(deviceId, rack, data, sections)
  {
    var found := FindSection(sections, deviceId);
    if found.Some? {
      pushed := PushFieldErrors(newErrors, found.value.fields, deviceId, rack, data);
    } else {
      pushed := newErrors;
    }
  }

  /** The middle `forEach`: the selected ids of one rack, in selection order. */
  method PushDeviceErrors(newErrors: seq<string>, deviceIds: seq<string>, rack: nat, data: FormData, sections: Schema)
    returns (pushed: seq<string>)
    ensures pushed == newErrors + DeviceErrors(deviceIds, rack, data, sections)
  {
    pushed := newErrors;
    var rest := deviceIds;
    while rest != []
      invariant pushed + DeviceErrors(rest, rack, data, sections) == newErrors + DeviceErrors(deviceIds, rack, data, sections)
      decreases |rest|
    {
      ghost var before := pushed;
      pushed := PushSectionErrors(pushed, rest[0], rack, data, sections);
      assert before + DeviceErrors(rest, rack, data, sections)
          == pushed + DeviceErrors(rest[1..], rack, data, sections);
      rest := rest[1..];
    }
    assert pushed + [] == pushed;
  }

  /**
   * validateForm's outer `forEach` for the found-issues case: each listed
   * rack in order pushes the missing-selection message or its devices' errors.
   */
  method CollectRackErrors(racks: seq<nat>, selected: Selection, data: FormData, sections: Schema)
    returns (newErrors: seq<string>)
    ensures newErrors == RackErrors(racks, selected, data, sections)
  {
    newErrors := [];
    var i := 0;
    while i < |racks|
      invariant 0 <= i <= |racks|
      invariant newErrors == RackErrors(racks[..i], selected, data, sections)
    {
      var rack := racks[i];
      if rack !in selected || |selected[rack]| == 0 {
        newErrors := newErrors + [NoDeviceMessage(rack)];
      } else {
        newErrors := PushDeviceErrors(newErrors, selected[rack], rack, data, sections);
      }
      RackErrorsAppend(racks[..i], [rack], selected, data, sections);
      assert racks[..i + 1] == racks[..i] + [rack];
      i := i + 1;
    }
    assert racks[..i] == racks;
  }

  // What "complete" means for one section and one rack.

  predicate SectionComplete(deviceId: string, rack: nat, data: FormData, sections: Schema) {
    match FindSection(sections, deviceId)
    case None => true
    case Some(section) => forall k :: 0 <= k < |section.fields| ==> !MissingRequired(section.fields[k], rack, data)
  }

  predicate RackComplete(rack: nat, selected: Selection, data: FormData, sections: Schema) {
    HasSelection(selected, rack) &&
    forall j :: 0 <= j < |selected[rack]| ==> SectionComplete(selected[rack][j], rack, data, sections)
  }

  lemma {:induction false} FieldErrorsEmptyIff(fields: seq<FormField>, deviceId: string, rack: nat, data: FormData)
    ensures FieldErrors(fields, deviceId, rack, data) == [] <==>
            forall k :: 0 <= k < |fields| ==> !MissingRequired(fields[k], rack, data)
  {
    if fields != [] {
      FieldErrorsEmptyIff(fields[1..], deviceId, rack, data);
      assert forall k :: 1 <= k < |fields| ==> fields[k] == fields[1..][k - 1];
    }
  }

  lemma SectionErrorsEmptyIff(deviceId: string, rack: nat, data: FormData, sections: Schema)
    ensures SectionErrors(deviceId, rack, data, sections) == [] <==> SectionComplete(deviceId, rack, data, sections)
  {
    match FindSection(sections, deviceId)
    case None =>
    case Some(section) => FieldErrorsEmptyIff(section.fields, deviceId, rack, data);
  }

  lemma {:induction false} DeviceErrorsEmptyIff(deviceIds: seq<string>, rack: nat, data: FormData, sections: Schema)
    ensures DeviceErrors(deviceIds, rack, data, sections) == [] <==>
            forall j :: 0 <= j < |deviceIds| ==> SectionComplete(deviceIds[j], rack, data, sections)
  {
    if deviceIds != [] {
      DeviceErrorsEmptyIff(deviceIds[1..], rack, data, sections);
      assert forall j :: 1 <= j < |deviceIds| ==> deviceIds[j] == deviceIds[1..][j - 1];
      SectionErrorsEmptyIff(deviceIds[0], rack, data, sections);
    }
  }

  /**
   * With issues found, validation passes exactly when every listed rack has
   * at least one selected device and every required field of every known
   * selected section holds a truthy value for that rack.
   */
  lemma {:induction false} RackErrorsEmptyIff(racks: seq<nat>, selected: Selection, data: FormData, sections: Schema)
    ensures RackErrors(racks, selected, data, sections) == [] <==>
            forall i :: 0 <= i < |racks| ==> RackComplete(racks[i], selected, data, sections)
  {
    if racks != [] {
      RackErrorsEmptyIff(racks[1..], selected, data, sections);
      assert forall i :: 1 <= i < |racks| ==> racks[i] == racks[1..][i - 1];
      if HasSelection(selected, racks[0]) {
        DeviceErrorsEmptyIff(selected[racks[0]], racks[0], data, sections);
      }
    }
  }

  // Which messages appear.

  /** `e` is the message of a missing required field of the section `deviceId` on `rack`. */
  predicate SectionErrorFor(e: string, deviceId: string, rack: nat, data: FormData, sections: Schema) {
    match FindSection(sections, deviceId)
    case None => false
    case Some(section) =>
      exists k :: 0 <= k < |section.fields| && MissingRequired(section.fields[k], rack, data) &&
                  e == RequiredMessage(section.fields[k].labelText, deviceId, rack)
  }

  /** `e` is one of the messages rack `rack` gives rise to. */
  predicate RackErrorFor(e: string, rack: nat, selected: Selection, data: FormData, sections: Schema) {
    if !HasSelection(selected, rack) then e == NoDeviceMessage(rack)
    else exists j :: 0 <= j < |selected[rack]| && SectionErrorFor(e, selected[rack][j], rack, data, sections)
  }

  lemma {:induction false} FieldErrorsMembers(fields: seq<FormField>, deviceId: string, rack: nat, data: FormData, e: string)
    ensures e in FieldErrors(fields, deviceId, rack, data) <==>
            exists k :: 0 <= k < |fields| && MissingRequired(fields[k], rack, data) &&
                        e == RequiredMessage(fields[k].labelText, deviceId, rack)
  {
    if fields != [] {
      FieldErrorsMembers(fields[1..], deviceId, rack, data, e);
      assert forall k :: 1 <= k < |fields| ==> fields[k] == fields[1..][k - 1];
      if e in FieldErrors(fields[1..], deviceId, rack, data) {
        var k :| 0 <= k < |fields[1..]| && MissingRequired(fields[1..][k], rack, data) &&
                 e == RequiredMessage(fields[1..][k].labelText, deviceId, rack);
        assert fields[k + 1] == fields[1..][k];
      }
    }
  }

  lemma {:induction false} DeviceErrorsMembers(deviceIds: seq<string>, rack: nat, data: FormData, sections: Schema, e: string)
    ensures e in DeviceErrors(deviceIds, rack, data, sections) <==>
            exists j :: 0 <= j < |deviceIds| && SectionErrorFor(e, deviceIds[j], rack, data, sections)
  {
    if deviceIds != [] {
      DeviceErrorsMembers(deviceIds[1..], rack, data, sections, e);
      assert forall j :: 1 <= j < |deviceIds| ==> deviceIds[j] == deviceIds[1..][j - 1];
      match FindSection(sections, deviceIds[0]) {
        case None =>
        case Some(section) => FieldErrorsMembers(section.fields, deviceIds[0], rack, data, e);
      }
      if e in DeviceErrors(deviceIds[1..], rack, data, sections) {
        var j :| 0 <= j < |deviceIds[1..]| && SectionErrorFor(e, deviceIds[1..][j], rack, data, sections);
        assert deviceIds[j + 1] == deviceIds[1..][j];
      }
    }
  }

  /**
   * With issues found, a message is reported exactly when some listed rack
   * has no selected device (and it names that rack), or a known selected
   * section of some rack has a required field whose value is falsy (and it
   * names that field's label, the section id and the rack, 1-based).
   */
  lemma {:induction false} RackErrorsMembers(racks: seq<nat>, selected: Selection, data: FormData, sections: Schema, e: string)
    ensures e in RackErrors(racks, selected, data, sections) <==>
            exists i :: 0 <= i < |racks| && RackErrorFor(e, racks[i], selected, data, sections)
  {
    if racks != [] {
      RackErrorsMembers(racks[1..], selected, data, sections, e);
      assert forall i :: 1 <= i < |racks| ==> racks[i] == racks[1..][i - 1];
      if HasSelection(selected, racks[0]) {
        DeviceErrorsMembers(selected[racks[0]], racks[0], data, sections, e);
      }
      if e in RackErrors(racks[1..], selected, data, sections) {
        var i :| 0 <= i < |racks[1..]| && RackErrorFor(e, racks[1..][i], selected, data, sections);
        assert racks[i + 1] == racks[1..][i];
      }
    }
  }

  // ---------------------------------------------------------------------
  // The data-hall display name

  function CapitalizeAll(words: seq<string>): (r: seq<string>)
    ensures |r| == |words|
    ensures forall i :: 0 <= i < |words| ==> r[i] == Capitalize(words[i])
  {
    if words == [] then [] else [Capitalize(words[0])] + CapitalizeAll(words[1..])
  }

  /** `datahallId.split('-').map(capitalize).join(' ')`. */
  function DatahallName(datahallId: string): string {
    Join(CapitalizeAll(Split(datahallId, '-')), ' ')
  }

  /** What position `i` of the id turns into: '-' becomes ' ', a word's first letter is upper-cased. */
  function TitleChar(s: string, i: nat): char
    requires i < |s|
  {
    if s[i] == '-' then ' '
    else if i == 0 || s[i - 1] == '-' then ToUpper(s[i])
    else s[i]
  }

  /** Within one word without '-', capitalizing is the title-case relabelling. */
  lemma CapitalizeTitles(w: string)
    requires '-' !in w
    ensures forall i :: 0 <= i < |w| ==> Capitalize(w)[i] == TitleChar(w, i)
  {
    forall i | 0 <= i < |w|
      ensures Capitalize(w)[i] == TitleChar(w, i)
    {
      assert w[i] in w;
      if i > 0 {
        assert w[i - 1] in w;
      }
    }
  }

  /** Title-casing `a-b` relabels `a`, turns the '-' into a space and relabels `b`. */
  lemma TitleCharJoin(a: string, b: string, i: nat)
    requires i < |a| + 1 + |b|
    ensures i < |a| ==> TitleChar(a + ['-'] + b, i) == TitleChar(a, i)
    ensures i == |a| ==> TitleChar(a + ['-'] + b, i) == ' '
    ensures i > |a| ==> TitleChar(a + ['-'] + b, i) == TitleChar(b, i - |a| - 1)
  {
    var s := a + ['-'] + b;
    if i < |a| {
      assert s[i] == a[i];
      assert i > 0 ==> s[i - 1] == a[i - 1];
    } else if i > |a| {
      var j := i - |a| - 1;
      assert s[i] == b[j];
      assert j > 0 ==> s[i - 1] == b[j - 1];
    }
  }

  lemma {:induction false} JoinCapitalized(words: seq<string>)
    requires |words| >= 1
    requires forall i :: 0 <= i < |words| ==> '-' !in words[i]
    ensures |Join(CapitalizeAll(words), ' ')| == |Join(words, '-')|
    ensures forall i :: 0 <= i < |Join(words, '-')| ==>
              Join(CapitalizeAll(words), ' ')[i] == TitleChar(Join(words, '-'), i)
    decreases |words|
  {
    var a := words[0];
    CapitalizeTitles(a);
    if |words| > 1 {
      var rest := words[1..];
      var b := Join(rest, '-');
      var ta := Capitalize(a);
      var tb := Join(CapitalizeAll(rest), ' ');
      JoinCapitalized(rest);
      assert CapitalizeAll(words)[1..] == CapitalizeAll(rest);
      assert Join(words, '-') == a + ['-'] + b;
      assert Join(CapitalizeAll(words), ' ') == ta + [' '] + tb;
      forall i | 0 <= i < |a| + 1 + |b|
        ensures (ta + [' '] + tb)[i] == TitleChar(a + ['-'] + b, i)
      {
        TitleCharJoin(a, b, i);
      }
    }
  }

  /**
   * The display name has the id's length; each '-' becomes a space, the
   * first character of each '-'-separated word is upper-cased and every
   * other character is kept.
   */
  lemma DatahallNameChars(datahallId: string)
    ensures |DatahallName(datahallId)| == |datahallId|
    ensures forall i :: 0 <= i < |datahallId| ==> DatahallName(datahallId)[i] == TitleChar(datahallId, i)
  {
    JoinCapitalized(Split(datahallId, '-'));
  }

  /** The name has one word per '-'-separated piece of the id. */
  lemma DatahallNameWords(datahallId: string)
    ensures |CapitalizeAll(Split(datahallId, '-'))| == Occurrences(datahallId, '-') + 1
  {
    SplitCount(datahallId, '-');
  }

  // ---------------------------------------------------------------------
  // The component state

  class InspectionForm {
    const datahallId: string
    const formSections: Schema
    var formData: FormData
    var errors: seq<string>
    var racks: seq<nat>
    var foundIssues: Option<bool>
    var openRacks: seq<nat>
    var selectedDevices: Selection
    /** saveProgress has run: the submission has been handed on. */
    var submitted: bool

    /** The page heading: the id's '-' become spaces and each word starts upper-case. */
    function DatahallTitle(): (title: string)
      ensures |title| == |datahallId|
      ensures forall i :: 0 <= i < |datahallId| ==> title[i] == TitleChar(datahallId, i)
    {
      DatahallNameChars(datahallId);
      DatahallName(datahallId)
    }

    /** Every formData key is a field key, and no rack lists a device twice. */
    ghost predicate Valid()
      reads this
    {
      && (forall key :: key in formData ==> ParseKey(key).Some?)
      && (forall rack :: rack in selectedDevices ==> NoDuplicates(selectedDevices[rack]))
    }

    /** Entering the flow; a missing or empty data-hall id redirects before any state exists. */
    constructor(datahallId: string, formSections: Schema)
      requires datahallId != ""
      ensures Valid()
      ensures this.datahallId == datahallId && this.formSections == formSections
      ensures formData == map[] && errors == [] && racks == [0] && foundIssues == None
      ensures openRacks == [0] && selectedDevices == map[] && !submitted
    {
      this.datahallId := datahallId;
      this.formSections := formSections;
      formData := map[];
      errors := [];
      racks := [0];
      foundIssues := None;
      openRacks := [0];
      selectedDevices := map[];
      submitted := false;
    }

    /** The "Yes, I found issues" / "No issues found" buttons; rack data is kept either way. */
    method SetFoundIssues(answer: bool)
      modifies this`foundIssues
      ensures foundIssues == Some(answer)
    {
      foundIssues := Some(answer);
    }

    method ToggleRack(rack: nat)
      modifies this`openRacks
      ensures openRacks == Toggle(old(openRacks), rack)
      ensures rack in openRacks <==> rack !in old(openRacks)
      ensures forall other :: other != rack ==> (other in openRacks <==> other in old(openRacks))
    {
      openRacks := Toggle(openRacks, rack);
    }

    method HandleFieldChange(fieldId: string, value: Value, rack: nat)
      requires Valid()
      modifies this`formData
      ensures Valid()
      ensures formData == old(formData)[FieldKey(fieldId, rack) := value]
    {
      ParseFieldKey(fieldId, rack);
      formData := formData[FieldKey(fieldId, rack) := value];
    }

    /** The new index is the current length, which an earlier removal can make a duplicate. */
    method AddRack()
      modifies this`racks, this`openRacks
      ensures racks == old(racks) + [|old(racks)|]
      ensures openRacks == old(openRacks) + [|old(racks)|]
    {
      var newRackIndex := |racks|;
      racks := racks + [newRackIndex];
      openRacks := openRacks + [newRackIndex];
    }

    method RemoveRack(rack: nat)
      requires Valid()
      modifies this`racks, this`openRacks, this`selectedDevices, this`formData
      ensures Valid()
      ensures racks == Remove(old(racks), rack)
      ensures openRacks == Remove(old(openRacks), rack)
      ensures selectedDevices == old(selectedDevices) - {rack}
      ensures formData == map key | key in old(formData) && !EndsWith(key, RackSuffix(rack)) :: old(formData)[key]
      ensures forall key :: key in old(formData) ==> (key in formData <==> ParseKey(key).value.1 != rack)
    {
      racks := Remove(racks, rack);
      openRacks := Remove(openRacks, rack);
      selectedDevices := selectedDevices - {rack};
      var newFormData := PurgeRackKeys(formData, rack);
      forall key | key in formData
        ensures key in newFormData <==> ParseKey(key).value.1 != rack
      {
        PurgedKeysAreTheRacks(key, rack);
      }
      formData := newFormData;
    }

    /** The selection stays in the map (possibly empty); other racks are untouched. */
    method ToggleDeviceSelection(rack: nat, deviceId: string)
      requires Valid()
      modifies this`selectedDevices
      ensures Valid()
      ensures selectedDevices == old(selectedDevices)[rack := Toggle(SelectionOf(old(selectedDevices), rack), deviceId)]
    {
      var current := SelectionOf(selectedDevices, rack);
      ToggleKeepsNoDuplicates(current, deviceId);
      selectedDevices := selectedDevices[rack := Toggle(current, deviceId)];
    }

    /**
     * With no answer yet, returns false and leaves `errors` as it was; with
     * "no issues", clears them and passes; otherwise stores the rack errors
     * and passes when there are none.
     */
    method ValidateForm() returns (ok: bool)
      modifies this`errors
      ensures foundIssues == None ==> !ok && errors == old(errors)
      ensures foundIssues == Some(false) ==> ok && errors == []
      ensures foundIssues == Some(true) ==>
                errors == RackErrors(racks, selectedDevices, formData, formSections) && (ok <==> errors == [])
    {
      var newErrors: seq<string> := [];
      if foundIssues == None {
        newErrors := newErrors + [NoAnswerMessage];
        return false;
      }
      if foundIssues == Some(true) {
        newErrors := CollectRackErrors(racks, selectedDevices, formData, formSections);
      }
      errors := newErrors;
      ok := |newErrors| == 0;
    }

    /** Submits only when validation passes. */
    method HandleSubmit()
      modifies this`errors, this`submitted
      ensures foundIssues == None ==> errors == old(errors) && submitted == old(submitted)
      ensures foundIssues == Some(false) ==> errors == [] && submitted
      ensures foundIssues == Some(true) ==>
                errors == RackErrors(racks, selectedDevices, formData, formSections) &&
                submitted == (old(submitted) || errors == [])
    {
      var ok := ValidateForm();
      if ok {
        submitted := true;
      }
    }
  }

  /** The racks after `n` additions: [0, 1, ..., n]. */
  function RacksAfterAdding(n: nat): (racks: seq<nat>)
    ensures |racks| == n + 1
    ensures forall i :: 0 <= i < |racks| ==> racks[i] == i
  {
    if n == 0 then [0] else RacksAfterAdding(n - 1) + [n]
  }

  /**
   * Rack indices are not fresh: after `n` additions, removing any rack but
   * the last and adding one more appends `n` again, so two racks share
   * index `n` (and every field key). For n = 2, removing rack 1 gives
   * [0, 2] and the next addition [0, 2, 2].
   */
  lemma AddAfterRemoveReusesIndex(n: nat, r: nat)
    requires r < n
    ensures var rest := Remove(RacksAfterAdding(n), r);
            |rest| == n && multiset(rest + [|rest|])[n] == 2
  {
    var racks := RacksAfterAdding(n);
    assert NoDuplicates(racks);
    assert racks[r] == r && racks[n] == n;
    NoDuplicatesCount(racks, r);
    NoDuplicatesCount(racks, n);
    var rest := Remove(racks, r);
    assert |multiset(rest)| == |multiset(racks)| - 1;
  }

  lemma DuplicateRackIndexExample()
    ensures var rest := Remove([0, 1, 2], 1); rest + [|rest|] == [0, 2, 2]
  {
    assert [0, 1, 2][1..] == [1, 2] && [1, 2][1..] == [2];
    assert Remove([2], 1) == [2];
  }
}
