/** Model providers: at most one default, and two procedures that must choose the same one. */
module ProviderConfig {
  import opened Wrappers

  /** A saved provider. An empty key or model is a missing one. */
  datatype Row = Row(id: nat, code: string, baseUrl: string, key: string, model: string, window: nat, extra: string,
                     enabled: bool, isDefault: bool)

  /** A field of a request: left out, present but malformed, or present. */
  datatype Field<T> = Absent | Malformed | Given(value: T)

  /** What an administrator sends. A blank key keeps the stored one. */
  datatype Payload = Payload(baseUrl: Field<string>, model: Option<string>, window: Field<nat>, extra: Field<string>,
                             key: string, enabled: Field<bool>, isDefault: Field<bool>)

  datatype ProviderError = UnknownProvider | MalformedField | Incomplete | NotSaved | NotUsable

  datatype Reason = Ready | Disabled | KeyMissing | ModelMissing

  datatype Listing = Listing(code: string, model: string, isDefault: bool, reason: Reason)

  const STANDARD_WINDOW := 262144

  function Or<T>(f: Field<T>, current: T): (r: T)
    ensures f.Given? ==> r == f.value
    ensures !f.Given? ==> r == current
  {
    if f.Given? then f.value else current
  }

  predicate Configured(row: Row) {
    row.key != "" && row.model != ""
  }

  predicate Available(row: Row) {
    row.enabled && Configured(row)
  }

  /** A row that was never filled in is not shown. */
  predicate Placeholder(row: Row) {
    !row.enabled && row.key == "" && row.model == ""
  }

  function ReasonFor(row: Row): Reason {
    if !row.enabled then Disabled
    else if row.key == "" then KeyMissing
    else if row.model == "" then ModelMissing
    else Ready
  }

  // ---------------------------------------------------------------- the table

  ghost predicate WellFormed(rows: map<string, Row>) {
    && (forall c :: c in rows ==> rows[c].code == c)
    && (forall c, d :: c in rows && d in rows && rows[c].id == rows[d].id ==> c == d)
  }

  /** Default implies enabled implies configured, and at most one row is the default. */
  ghost predicate OneDefault(rows: map<string, Row>) {
    && (forall c :: c in rows && rows[c].isDefault ==> rows[c].enabled)
    && (forall c :: c in rows && rows[c].enabled ==> Configured(rows[c]))
    && (forall c, d :: c in rows && d in rows && rows[c].isDefault && rows[d].isDefault ==> c == d)
  }

  /** The order of the public list: the default first, then by id. */
  predicate Before(a: Row, b: Row) {
    (a.isDefault && !b.isDefault) || (a.isDefault == b.isDefault && a.id < b.id)
  }

  /** The table after a save: this row, and no other default if it is one. */
  ghost predicate IsSaved(before: map<string, Row>, after: map<string, Row>, row: Row) {
    && after.Keys == before.Keys + {row.code} && after[row.code] == row
    && forall c :: c in before && c != row.code ==>
         after[c] == before[c].(isDefault := before[c].isDefault && !row.isDefault)
  }

  lemma SaveKeepsInvariant(before: map<string, Row>, nextId: nat, after: map<string, Row>, row: Row)
    requires WellFormed(before) && OneDefault(before) && IsSaved(before, after, row)
    requires forall c :: c in before ==> before[c].id < nextId
    requires row.id == if row.code in before then before[row.code].id else nextId
    requires row.isDefault ==> row.enabled
    requires row.enabled ==> Configured(row)
    ensures WellFormed(after) && OneDefault(after)
  {
    hide Configured, WellFormed, OneDefault;
    SaveKeepsForm(before, nextId, after, row);
    SaveKeepsDefault(before, after, row);
  }

  lemma SaveKeepsForm(before: map<string, Row>, nextId: nat, after: map<string, Row>, row: Row)
    requires WellFormed(before) && IsSaved(before, after, row)
    requires forall c :: c in before ==> before[c].id < nextId
    requires row.id == if row.code in before then before[row.code].id else nextId
    ensures WellFormed(after)
  {
    assert forall c :: c in after ==> c == row.code || c in before;
  }

  lemma SaveKeepsDefault(before: map<string, Row>, after: map<string, Row>, row: Row)
    requires OneDefault(before) && IsSaved(before, after, row)
    requires row.isDefault ==> row.enabled
    requires row.enabled ==> Configured(row)
    ensures OneDefault(after)
  {
    hide Configured;
    assert forall c :: c in after ==> c == row.code || c in before;
    assert forall c :: c in before && c != row.code ==> Configured(before[c]) == Configured(after[c]) by {
      KeepsConfigured();
    }
  }

  lemma KeepsConfigured()
    ensures forall row: Row, d: bool :: Configured(row.(isDefault := d)) == Configured(row)
  {
  }

  // ---------------------------------------------------------------- the two choices

  /** What the page is told: the first available row of the public list. */
  ghost predicate IsAdvertised(rows: map<string, Row>, d: Option<string>) {
    match d
    case None => forall c :: c in rows ==> !Available(rows[c])
    case Some(code) =>
      && code in rows && Available(rows[code])
      && forall c :: c in rows && Available(rows[c]) ==> c == code || Before(rows[code], rows[c])
  }

  predicate Eligible(row: Row, requireEnabled: bool) {
    row.enabled || !requireEnabled
  }

  /** The row a lookup without a code arrives at: an eligible default, else the eligible row
      of least id. */
  ghost predicate IsFallback(rows: map<string, Row>, requireEnabled: bool, row: Row) {
    && (exists c :: c in rows && rows[c] == row)
    && Eligible(row, requireEnabled)
    && (row.isDefault
        || forall c :: c in rows && Eligible(rows[c], requireEnabled) ==> !rows[c].isDefault && row.id <= rows[c].id)
  }

  /** What the runtime uses when no provider is named. */
  ghost predicate IsPicked(rows: map<string, Row>, requireEnabled: bool, r: Result<Row, ProviderError>) {
    match r
    case Success(row) => IsFallback(rows, requireEnabled, row) && Configured(row)
    case Failure(e) =>
      && e == NotUsable
      && (|| (forall c :: c in rows ==> !Eligible(rows[c], requireEnabled))
          || exists c :: c in rows && IsFallback(rows, requireEnabled, rows[c]) && !Configured(rows[c]))
  }

  /** The advertised default is exactly the row the runtime picks. */
  lemma AdvertisedIsPicked(rows: map<string, Row>, d: Option<string>, r: Result<Row, ProviderError>)
    requires WellFormed(rows) && OneDefault(rows)
    requires IsAdvertised(rows, d) && IsPicked(rows, true, r)
    ensures d.Some? <==> r.Success?
    ensures d.Some? ==> rows[d.value] == r.value
  {
    if d.Some? && r.Success? {
      var c :| c in rows && rows[c] == r.value;
      assert Available(rows[c]);
    }
  }

  /** The advertised provider, written out: enabled, with key and model, and of all such rows
      the default or, without one, that of least id. */
  lemma AdvertisedMeans(rows: map<string, Row>, code: string)
    requires WellFormed(rows) && IsAdvertised(rows, Some(code))
    ensures code in rows && rows[code].enabled && rows[code].key != "" && rows[code].model != ""
    ensures forall c :: c in rows && c != code && rows[c].enabled && rows[c].key != "" && rows[c].model != "" ==>
              (rows[code].isDefault && !rows[c].isDefault)
              || (rows[code].isDefault == rows[c].isDefault && rows[code].id < rows[c].id)
  {
  }

  /** On a table without that invariant they can differ: one enabled row lacks its key. */
  lemma DisagreeWithoutInvariant()
    ensures exists rows: map<string, Row>, d: Option<string>, r: Result<Row, ProviderError> ::
              && WellFormed(rows) && IsAdvertised(rows, d) && IsPicked(rows, true, r)
              && d.Some? && r.Failure?
  {
    var a := Row(1, "a", "", "", "m", STANDARD_WINDOW, "", true, false);
    var b := Row(2, "b", "", "k", "m", STANDARD_WINDOW, "", true, false);
    var rows := map["a" := a, "b" := b];
    assert IsAdvertised(rows, Some("b"));
    assert rows["a"] == a && IsFallback(rows, true, rows["a"]) && !Configured(rows["a"]);
    assert IsPicked(rows, true, Failure(NotUsable));
    assert WellFormed(rows);
  }

  // ---------------------------------------------------------------- the service

  class ProviderConfigService {
    const presets: map<string, string>
    var rows: map<string, Row>
    var nextId: nat

    ghost predicate Valid()
      reads this
    {
      && WellFormed(rows) && OneDefault(rows)
      && forall c :: c in rows ==> c in presets && rows[c].id < nextId
    }

    constructor (presets: map<string, string>)
      ensures Valid() && rows == map[] && this.presets == presets
    {
      this.presets := presets;
      rows := map[];
      nextId := 1;
    }

    /** The row as it is, or the new one that a save would insert. */
    function Current(code: string): Row
      requires code in presets
      reads this
    {
      if code in rows then rows[code]
      else Row(nextId, code, presets[code], "", "", STANDARD_WINDOW, "", false, false)
    }

    /** When a request is refused: an unknown provider, a malformed field, or a provider that
        would be enabled or the default without a model or a key. */
    ghost predicate Refused(code: string, p: Payload)
      reads this
    {
      || code !in presets
      || p.baseUrl.Malformed? || p.window.Malformed? || p.extra.Malformed?
      || p.enabled.Malformed? || p.isDefault.Malformed?
      || (var was := Current(code);
          && (Or(p.enabled, was.enabled) || Or(p.isDefault, was.isDefault))
          && ((p.key == "" && was.key == "") || (if p.model.Some? then p.model.value else was.model) == ""))
    }

    /** The saved row: named fields replace, and the default is always enabled. */
    ghost predicate Accepted(code: string, p: Payload, row: Row)
      requires code in presets
      reads this
    {
      var was := Current(code);
      && row.id == was.id && row.code == code
      && row.isDefault == Or(p.isDefault, was.isDefault)
      && row.enabled == (Or(p.enabled, was.enabled) || row.isDefault)
      && row.model == (if p.model.Some? then p.model.value else was.model)
      && row.key == (if p.key != "" then p.key else was.key)
      && row.window == Or(p.window, was.window) && row.extra == Or(p.extra, was.extra)
      && row.baseUrl == Or(p.baseUrl, if was.baseUrl == "" then presets[code] else was.baseUrl)
      && (row.enabled ==> row.key != "" && row.model != "")
    }

    method Edit(code: string, p: Payload) returns (r: Result<Row, ProviderError>)
      requires WellFormed(rows)
      ensures r.Failure? <==> Refused(code, p)
      ensures r.Failure? ==>
                r.error == if code !in presets then UnknownProvider
                           else if p.baseUrl.Malformed? || p.window.Malformed? || p.extra.Malformed?
                                   || p.enabled.Malformed? || p.isDefault.Malformed? then MalformedField
                           else Incomplete
      ensures r.Success? ==> code in presets && Accepted(code, p, r.value)
    {
      if code !in presets {
        return Failure(UnknownProvider);
      }
      var row := Current(code);
      if p.baseUrl.Malformed? {
        return Failure(MalformedField);
      }
      row := row.(baseUrl := Or(p.baseUrl, if row.baseUrl == "" then presets[code] else row.baseUrl));
      if p.model.Some? {
        row := row.(model := p.model.value);
      }
      if p.window.Malformed? || p.extra.Malformed? {
        return Failure(MalformedField);
      }
      row := row.(window := Or(p.window, row.window), extra := Or(p.extra, row.extra));
      if p.key != "" {
        row := row.(key := p.key);
      }
      if p.enabled.Malformed? || p.isDefault.Malformed? {
        return Failure(MalformedField);
      }
      var enabled, isDefault := Or(p.enabled, row.enabled), Or(p.isDefault, row.isDefault);
      if (enabled || isDefault) && !Configured(row) {
        return Failure(Incomplete);
      }
      if isDefault {
        enabled := true;
      }
      return Success(row.(enabled := enabled, isDefault := isDefault));
    }

    /** A refused save changes nothing; an accepted one keeps the invariant. */
    method Save(code: string, p: Payload) returns (r: Result<Row, ProviderError>)
      requires Valid()
      modifies this
      ensures Valid()
      ensures r.Failure? <==> old(Refused(code, p))
      ensures r.Failure? ==> rows == old(rows) && nextId == old(nextId)
      ensures r.Success? ==> old(Accepted(code, p, r.value))
      ensures r.Success? ==> IsSaved(old(rows), rows, r.value)
      ensures r.Success? && code in old(rows) ==> nextId == old(nextId) && r.value.id == old(rows)[code].id
      ensures r.Success? && code !in old(rows) ==>
                && r.value.id == old(nextId) && nextId == old(nextId) + 1 && r.value.key == p.key
                && r.value.baseUrl == (if p.baseUrl.Given? then p.baseUrl.value else presets[code])
                && r.value.model == (if p.model.Some? then p.model.value else "")
                && (p.window.Absent? ==> r.value.window == 262144) && (p.extra.Absent? ==> r.value.extra == "")
                && (p.isDefault.Absent? ==> !r.value.isDefault)
                && (p.enabled.Absent? && p.isDefault.Absent? ==> !r.value.enabled)
    {
      hide Refused, WellFormed, OneDefault, Configured, Accepted;
      r := Edit(code, p);
      if r.Success? {
        AcceptedFacts(code, p, r.value);
        var row := r.value;
        var after := if row.isDefault then (map c | c in rows :: if c == code then rows[c] else rows[c].(isDefault := false))
                     else rows;
        SaveKeepsInvariant(rows, nextId, after[code := row], row);
        if code !in rows {
          nextId := nextId + 1;
        }
        rows := after[code := row];
      }
    }

    /** What every sequence of saves and key clears keeps, written out. */
    lemma InvariantMeans(c: string, d: string)
      requires Valid() && c in rows && d in rows
      ensures rows[c].isDefault ==> rows[c].enabled
      ensures rows[c].enabled ==> rows[c].key != "" && rows[c].model != ""
      ensures rows[c].isDefault && rows[d].isDefault ==> c == d
    {
    }

    lemma AcceptedFacts(code: string, p: Payload, row: Row)
      requires Valid() && code in presets && Accepted(code, p, row)
      ensures row.code == code && row.id == Current(code).id
      ensures (row.isDefault ==> row.enabled) && (row.enabled ==> Configured(row))
      ensures code !in rows ==>
                && row.id == nextId && row.key == p.key
                && row.baseUrl == (if p.baseUrl.Given? then p.baseUrl.value else presets[code])
                && row.model == (if p.model.Some? then p.model.value else "")
                && (p.window.Absent? ==> row.window == 262144) && (p.extra.Absent? ==> row.extra == "")
                && (p.isDefault.Absent? ==> !row.isDefault)
                && (p.enabled.Absent? && p.isDefault.Absent? ==> !row.enabled)
    {
    }

    method ClearKey(code: string) returns (r: Result<Row, ProviderError>)
      requires Valid()
      modifies this`rows
      ensures Valid()
      ensures r.Success? <==> code in old(rows)
      ensures r.Success? ==> rows == old(rows)[code := r.value]
                             && r.value == old(rows)[code].(key := "", enabled := false, isDefault := false)
      ensures r.Failure? ==> rows == old(rows) && r.error == if code in presets then NotSaved else UnknownProvider
    {
      if code !in presets {
        return Failure(UnknownProvider);
      }
      if code !in rows {
        return Failure(NotSaved);
      }
      var row := rows[code].(key := "", enabled := false, isDefault := false);
      rows := rows[code := row];
      return Success(row);
    }

    method LeastId(codes: set<string>) returns (code: string)
      requires codes != {} && codes <= rows.Keys
      ensures code in codes && forall c :: c in codes ==> rows[code].id <= rows[c].id
    {
      code :| code in codes;
      var rest := codes - {code};
      while rest != {}
        invariant rest <= codes && code in codes
        invariant forall c :: c in codes && c !in rest ==> rows[code].id <= rows[c].id
      {
        var next :| next in rest;
        if rows[next].id < rows[code].id {
          code := next;
        }
        rest := rest - {next};
      }
    }

    /** The row the runtime uses: the named one, or the fallback. */
    method ConfiguredRow(code: string, requireEnabled: bool) returns (r: Result<Row, ProviderError>)
      requires WellFormed(rows)
      ensures code == "" ==> IsPicked(rows, requireEnabled, r)
      ensures code != "" ==>
                if code in rows && (rows[code].enabled || !requireEnabled) && rows[code].key != "" && rows[code].model != ""
                then r == Success(rows[code]) else r == Failure(NotUsable)
    {
      var eligible := set c | c in rows && Eligible(rows[c], requireEnabled);
      var row: Row;
      if code != "" {
        if code !in eligible {
          return Failure(NotUsable);
        }
        row := rows[code];
      } else {
        var defaults := set c | c in eligible && rows[c].isDefault;
        if defaults != {} {
          var c :| c in defaults;
          row := rows[c];
        } else if eligible != {} {
          var c := LeastId(eligible);
          row := rows[c];
        } else {
          assert forall c :: c in rows && Eligible(rows[c], requireEnabled) ==> c in eligible;
          return Failure(NotUsable);
        }
        assert forall c :: c in rows && Eligible(rows[c], requireEnabled) ==> c in eligible;
        assert forall c :: c in eligible && rows[c].isDefault ==> c in defaults;
        assert IsFallback(rows, requireEnabled, row);
      }
      return if Configured(row) then Success(row) else Failure(NotUsable);
    }

    // -------------------------------------------------------------- the public list

    ghost predicate Ordered(list: seq<Row>) {
      forall i, j :: 0 <= i < j < |list| ==> Before(list[i], list[j])
    }

    method SortRows() returns (list: seq<Row>)
      requires WellFormed(rows)
      ensures Ordered(list)
      ensures forall row :: row in list <==> exists c :: c in rows && rows[c] == row
    {
      list := [];
      var rest := rows.Keys;
      while rest != {}
        invariant rest <= rows.Keys && Ordered(list)
        invariant forall row :: row in list <==> exists c :: c in rows && c !in rest && rows[c] == row
      {
        var code :| code in rest;
        list := Insert(list, rows[code]);
        rest := rest - {code};
      }
    }

    method Insert(list: seq<Row>, row: Row) returns (r: seq<Row>)
      requires Ordered(list) && forall other :: other in list ==> other.id != row.id
      ensures Ordered(r)
      ensures forall other :: other in r <==> other in list || other == row
    {
      var i := 0;
      while i < |list| && Before(list[i], row)
        invariant i <= |list|
        invariant forall j :: 0 <= j < i ==> Before(list[j], row)
      {
        i := i + 1;
      }
      r := list[..i] + [row] + list[i..];
    }

    ghost predicate ListsRows(list: seq<Row>)
      reads this`rows
    {
      Ordered(list) && forall row :: row in list <==> exists c :: c in rows && rows[c] == row
    }

    /** The public list, written out: the rows that are enabled or have a key or a model, the
        default first and then by id, each with the first thing that it lacks. */
    ghost predicate ShowsRows(listing: seq<Listing>)
      reads this`rows
    {
      && (forall c :: c in rows && (rows[c].enabled || rows[c].key != "" || rows[c].model != "") ==>
            exists l :: l in listing && l.code == c)
      && (forall i :: 0 <= i < |listing| ==> ShowsRow(listing[i]))
      && (forall i, j :: 0 <= i < j < |listing| ==>
            && listing[i].code in rows && listing[j].code in rows
            && var a, b := rows[listing[i].code], rows[listing[j].code];
               (a.isDefault && !b.isDefault) || (a.isDefault == b.isDefault && a.id < b.id))
    }

    ghost predicate ShowsRow(l: Listing)
      reads this`rows
    {
      l.code in rows
      && var row := rows[l.code];
         && (row.enabled || row.key != "" || row.model != "")
         && l.model == row.model && l.isDefault == row.isDefault
         && (l.reason.Disabled? <==> !row.enabled)
         && (l.reason.KeyMissing? <==> row.enabled && row.key == "")
         && (l.reason.ModelMissing? <==> row.enabled && row.key != "" && row.model == "")
    }

    lemma ShownMeans(list: seq<Row>)
      requires WellFormed(rows) && ListsRows(list)
      ensures ShowsRows(Shown(list))
    {
      hide Placeholder, ReasonFor, Shown;
      ShownAre(list);
      forall i | 0 <= i < |Shown(list)|
        ensures ShowsRow(Shown(list)[i])
      {
        assert Shown(list)[i] in Shown(list);
        var row :| row in list && !Placeholder(row) && Shown(list)[i] == Listed(row);
        ListedMeans(row);
      }
      forall c | c in rows && (rows[c].enabled || rows[c].key != "" || rows[c].model != "")
        ensures exists l :: l in Shown(list) && l.code == c
      {
        ListedMeans(rows[c]);
        assert rows[c] in list && Listed(rows[c]) in Shown(list);
      }
      forall i, j | 0 <= i < j < |Shown(list)|
        ensures Shown(list)[i].code in rows && Shown(list)[j].code in rows
        ensures var a, b := rows[Shown(list)[i].code], rows[Shown(list)[j].code];
                (a.isDefault && !b.isDefault) || (a.isDefault == b.isDefault && a.id < b.id)
      {
        var a, b := ShownInOrder(list, i, j);
        assert list[a] in list && list[b] in list;
      }
    }

    lemma ListedMeans(row: Row)
      ensures Placeholder(row) <==> !(row.enabled || row.key != "" || row.model != "")
      ensures var l := Listed(row);
              && l.code == row.code && l.model == row.model && l.isDefault == row.isDefault
              && (l.reason.Disabled? <==> !row.enabled)
              && (l.reason.KeyMissing? <==> row.enabled && row.key == "")
              && (l.reason.ModelMissing? <==> row.enabled && row.key != "" && row.model == "")
    {
    }

    method PublicRows() returns (listing: seq<Listing>, default: Option<string>)
      requires WellFormed(rows)
      ensures exists list :: ListsRows(list) && listing == Shown(list)
      ensures ShowsRows(listing)
      ensures IsAdvertised(rows, default)
    {
      hide Placeholder, Available, Before, ReasonFor, WellFormed, ShowsRows;
      var list := SortRows();
      listing, default := [], None;
      ghost var at := 0;
      for i := 0 to |list|
        invariant listing == Shown(list[..i])
        invariant default == None ==> forall j :: 0 <= j < i ==> !(Available(list[j]) && list[j].isDefault)
        invariant default.Some? ==> at < i && IsFirst(list, at, row => Available(row) && row.isDefault)
                                    && list[at].code == default.value
      {
        assert list[..i + 1][..i] == list[..i];
        var row := list[i];
        ReadyIsAvailable(row);
        if Placeholder(row) {
          continue;
        }
        listing := listing + [Listed(row)];
        if ReasonFor(row) == Ready && row.isDefault && default == None {
          at, default := i, Some(row.code);
        }
      }
      assert list[..|list|] == list;
      ShownMeans(list);
      if default.Some? {
        DefaultIsFirst(list, at);
        AdvertisedAt(list, at);
        return;
      }
      var k := 0;
      while k < |listing| && listing[k].reason != Ready
        invariant k <= |listing|
        invariant forall j :: 0 <= j < k ==> listing[j].reason != Ready
      {
        k := k + 1;
      }
      if k < |listing| {
        default := Some(listing[k].code);
        ghost var j := FirstReadyIs(list, k);
        AdvertisedAt(list, j);
      } else {
        NoneReady(list);
      }
    }

    lemma DefaultIsFirst(list: seq<Row>, at: nat)
      requires Ordered(list) && IsFirst(list, at, row => Available(row) && row.isDefault)
      ensures IsFirst(list, at, Available)
    {
      hide Available;
    }

    lemma AdvertisedAt(list: seq<Row>, at: nat)
      requires WellFormed(rows) && ListsRows(list) && IsFirst(list, at, Available)
      ensures IsAdvertised(rows, Some(list[at].code))
    {
      hide Available, Before;
      assert list[at] in list;
      forall c | c in rows && Available(rows[c])
        ensures c == list[at].code || Before(list[at], rows[c])
      {
        assert rows[c] in list;
        var i :| 0 <= i < |list| && list[i] == rows[c];
      }
    }
  }

  ghost predicate IsFirst(list: seq<Row>, at: nat, p: Row -> bool) {
    at < |list| && p(list[at]) && forall i :: 0 <= i < at ==> !p(list[i])
  }

  function Listed(row: Row): Listing {
    Listing(row.code, row.model, row.isDefault, ReasonFor(row))
  }

  /** Every row that was filled in, with the reason it cannot be used. */
  ghost function Shown(list: seq<Row>): seq<Listing> {
    if list == [] then []
    else
      var n := |list| - 1;
      Shown(list[..n]) + (if Placeholder(list[n]) then [] else [Listed(list[n])])
  }

  lemma {:induction false} ShownAre(list: seq<Row>)
    ensures forall l :: l in Shown(list) <==> exists row :: row in list && !Placeholder(row) && l == Listed(row)
  {
    hide Placeholder, ReasonFor, Listed;
    if list != [] {
      var n := |list| - 1;
      ShownAre(list[..n]);
      assert list == list[..n] + [list[n]];
    }
  }

  lemma {:induction false} ShownInOrder(list: seq<Row>, i: nat, j: nat) returns (a: nat, b: nat)
    requires i < j < |Shown(list)|
    ensures a < b < |list| && Shown(list)[i] == Listed(list[a]) && Shown(list)[j] == Listed(list[b])
  {
    hide Placeholder, ReasonFor, Listed;
    var n := |list| - 1;
    if j < |Shown(list[..n])| {
      a, b := ShownInOrder(list[..n], i, j);
    } else {
      a := ShownAt(list[..n], i);
      b := n;
    }
  }

  lemma {:induction false} ShownAt(list: seq<Row>, i: nat) returns (a: nat)
    requires i < |Shown(list)|
    ensures a < |list| && Shown(list)[i] == Listed(list[a])
  {
    hide Placeholder, ReasonFor, Listed;
    var n := |list| - 1;
    if i < |Shown(list[..n])| {
      a := ShownAt(list[..n], i);
    } else {
      a := n;
    }
  }

  lemma ReadyIsAvailable(row: Row)
    ensures ReasonFor(row) == Ready <==> Available(row)
    ensures Available(row) ==> !Placeholder(row)
  {
  }

  lemma {:induction false} NoneReady(list: seq<Row>)
    requires forall l :: l in Shown(list) ==> l.reason != Ready
    ensures forall row :: row in list ==> !Available(row)
  {
    hide Available, Placeholder, ReasonFor;
    if list != [] {
      var n := |list| - 1;
      assert forall l :: l in Shown(list[..n]) ==> l in Shown(list);
      NoneReady(list[..n]);
      ReadyIsAvailable(list[n]);
      assert list == list[..n] + [list[n]];
      if !Placeholder(list[n]) {
        assert Shown(list) == Shown(list[..n]) + [Listed(list[n])];
        assert Listed(list[n]) in Shown(list);
      }
    }
  }

  /** The first usable listing shows the first usable row. */
  lemma {:induction false} FirstReadyIs(list: seq<Row>, k: nat) returns (at: nat)
    requires k < |Shown(list)| && Shown(list)[k].reason == Ready
    requires forall j :: 0 <= j < k ==> Shown(list)[j].reason != Ready
    ensures IsFirst(list, at, Available) && list[at].code == Shown(list)[k].code
  {
    hide Available, Placeholder, ReasonFor;
    var n := |list| - 1;
    var front := Shown(list[..n]);
    assert front <= Shown(list);
    assert forall j :: 0 <= j < |front| ==> front[j] == Shown(list)[j];
    if k < |front| {
      at := FirstReadyIs(list[..n], k);
    } else {
      at := n;
      assert forall l :: l in front ==> l.reason != Ready;
      NoneReady(list[..n]);
      ReadyIsAvailable(list[n]);
      forall i | 0 <= i < n
        ensures !Available(list[i])
      {
        assert list[..n][i] in list[..n];
      }
    }
  }
}
