/** The record half of `update_move_record_cloud` (`src/scrape_za.py`):
    how a scraped move record is normalised, which columns the UPDATE sets
    and with which values, and the statement it executes. */
module ScrapeRecord {
  import opened Wrappers
  import opened PyValues
  import opened SqlText
  import Tools

  // ---------------------------------------------------------------------
  // Key normalisation

  /** The keys of a scraped move record that this code reads or writes:
      the record's own keys, the legacy spellings the normalisation accepts
      and `move_key`, which the scrapers set. `KeyText` gives each one's
      text. */
  datatype Key =
    | Name | Type | Category | Power | ActivationTime | StartupTime
    | StartupTimeQ | QuickClaw | StartupTimePlus | RecoveryTime | TotalTime
    | TotalTimePlus | Dps | DirectAttack | Contact | FingerWag | Finger
    | Protect | Substitute | Range | LegacyRange | Effect | PageUrl | MoveKey

  function KeyText(k: Key): string {
    match k
    case Name => "name"
    case Type => "type"
    case Category => "category"
    case Power => "power"
    case ActivationTime => "activation_time"
    case StartupTime => "startup_time"
    case StartupTimeQ => "startup_time_q"
    case QuickClaw => "startup_time_quickclaw"
    case StartupTimePlus => "startup_time_plus"
    case RecoveryTime => "recovery_time"
    case TotalTime => "total_time"
    case TotalTimePlus => "total_time_plus"
    case Dps => "dps"
    case DirectAttack => "direct_attack"
    case Contact => "contact"
    case FingerWag => "finger_wag"
    case Finger => "finger"
    case Protect => "protect"
    case Substitute => "substitute"
    case Range => "range_"
    case LegacyRange => "range"
    case Effect => "effect"
    case PageUrl => "page_url"
    case MoveKey => "move_key"
  }

  /** A scraped move record, which only `data.get(key)` and
      `data[key] = v` touch; keys it may hold besides these play no part. */
  type Record = map<Key, Value>

  /** `data.get(key)`: None when the key is absent. */
  function Field(data: Record, key: Key): Value {
    if key in data then data[key] else VNone
  }

  /** `data.get(primary)`, or `data.get(alias)` when that is None. */
  function Pick(data: Record, primary: Key, alias: Key): Value {
    if Field(data, primary) != VNone then Field(data, primary) else Field(data, alias)
  }

  /** `normalized.get(k)` for a scraped record: a key's own value; for the
      four keys with a legacy spelling (quick-claw startup, contact, finger,
      range) the legacy key's value when that is None; for the two "plus"
      timings the base timing's value when theirs is None; None for a key
      the normalised record does not hold. */
  function NormalizedValue(data: Record, k: Key): Value {
    match k
    case Name => Field(data, Name)
    case Type => Field(data, Type)
    case Category => Field(data, Category)
    case Power => Field(data, Power)
    case ActivationTime => Field(data, ActivationTime)
    case StartupTime => Field(data, StartupTime)
    case StartupTimeQ => Pick(data, StartupTimeQ, QuickClaw)
    case QuickClaw => VNone
    case StartupTimePlus => Pick(data, StartupTimePlus, StartupTime)
    case RecoveryTime => Field(data, RecoveryTime)
    case TotalTime => Field(data, TotalTime)
    case TotalTimePlus => Pick(data, TotalTimePlus, TotalTime)
    case Dps => Field(data, Dps)
    case DirectAttack => Pick(data, DirectAttack, Contact)
    case Contact => VNone
    case FingerWag => Pick(data, FingerWag, Finger)
    case Finger => VNone
    case Protect => Field(data, Protect)
    case Substitute => Field(data, Substitute)
    case Range => Pick(data, Range, LegacyRange)
    case LegacyRange => VNone
    case Effect => Field(data, Effect)
    case PageUrl => Field(data, PageUrl)
    case MoveKey => VNone
  }

  /** The dict `normalized`: one value per normalisable key. */
  datatype Normalized = Normalized(
    name: Value,
    moveType: Value,
    category: Value,
    power: Value,
    activationTime: Value,
    startupTime: Value,
    startupTimeQ: Value,
    startupTimePlus: Value,
    recoveryTime: Value,
    totalTime: Value,
    totalTimePlus: Value,
    dps: Value,
    directAttack: Value,
    fingerWag: Value,
    protect: Value,
    substitute: Value,
    range: Value,
    effect: Value,
    pageUrl: Value)
  {
    /** `normalized.get(k)`: None for a key it does not hold. */
    function Get(k: Key): Value {
      match k
      case Name => name
      case Type => moveType
      case Category => category
      case Power => power
      case ActivationTime => activationTime
      case StartupTime => startupTime
      case StartupTimeQ => startupTimeQ
      case QuickClaw => VNone
      case StartupTimePlus => startupTimePlus
      case RecoveryTime => recoveryTime
      case TotalTime => totalTime
      case TotalTimePlus => totalTimePlus
      case Dps => dps
      case DirectAttack => directAttack
      case Contact => VNone
      case FingerWag => fingerWag
      case Finger => VNone
      case Protect => protect
      case Substitute => substitute
      case Range => range
      case LegacyRange => VNone
      case Effect => effect
      case PageUrl => pageUrl
      case MoveKey => VNone
    }
  }

  /** The normalised record of a scraped record, field by field. */
  function NormalizedOf(data: Record): Normalized
  {
    Normalized(
      Field(data, Name),
      Field(data, Type),
      Field(data, Category),
      Field(data, Power),
      Field(data, ActivationTime),
      Field(data, StartupTime),
      Pick(data, StartupTimeQ, QuickClaw),
      Pick(data, StartupTimePlus, StartupTime),
      Field(data, RecoveryTime),
      Field(data, TotalTime),
      Pick(data, TotalTimePlus, TotalTime),
      Field(data, Dps),
      Pick(data, DirectAttack, Contact),
      Pick(data, FingerWag, Finger),
      Field(data, Protect),
      Field(data, Substitute),
      Pick(data, Range, LegacyRange),
      Field(data, Effect),
      Field(data, PageUrl))
  }

  /** Each key of the normalised record holds the value normalisation
      gives it, and the keys it does not hold read as None. */
  lemma NormalizedOfGet(data: Record)
    ensures forall k :: NormalizedOf(data).Get(k) == NormalizedValue(data, k)
  {
    forall k ensures NormalizedOf(data).Get(k) == NormalizedValue(data, k) {
      match k
      case Name =>
      case Type =>
      case Category =>
      case Power =>
      case ActivationTime =>
      case StartupTime =>
      case StartupTimeQ =>
      case QuickClaw =>
      case StartupTimePlus =>
      case RecoveryTime =>
      case TotalTime =>
      case TotalTimePlus =>
      case Dps =>
      case DirectAttack =>
      case Contact =>
      case FingerWag =>
      case Finger =>
      case Protect =>
      case Substitute =>
      case Range =>
      case LegacyRange =>
      case Effect =>
      case PageUrl =>
      case MoveKey =>
    }
  }

  /** `normalized[k] = data.get(primary)` followed by
      `if normalized[k] is None: normalized[k] = data.get(alias)`. */
  method TakeWithAlias(data: Record, primary: Key, alias: Key) returns (v: Value)
    ensures v == Pick(data, primary, alias)
  {
    v := Field(data, primary);
    if v == VNone {
      v := Field(data, alias);
    }
  }

  /** `if normalized.get(k) is None: normalized[k] = normalized.get(base)`. */
  method MirrorIfNone(v: Value, base: Value) returns (r: Value)
    ensures r == if v == VNone then base else v
  {
    r := v;
    if r == VNone {
      r := base;
    }
  }

  /** `normalized` of `update_move_record_cloud`, filled key by key in the
      order of the source (a key not yet filled holds None); the result is
      the normalised record. */
  method NormalizeMove(data: Record) returns (normalized: Normalized)
    ensures normalized == NormalizedOf(data)
  {
    normalized := Normalized(VNone, VNone, VNone, VNone, VNone, VNone, VNone, VNone, VNone, VNone, VNone, VNone, VNone, VNone, VNone, VNone, VNone, VNone, VNone);
    normalized := normalized.(name := Field(data, Name));
    normalized := normalized.(moveType := Field(data, Type));
    normalized := normalized.(category := Field(data, Category));
    normalized := normalized.(power := Field(data, Power));
    normalized := normalized.(activationTime := Field(data, ActivationTime));
    normalized := normalized.(startupTime := Field(data, StartupTime));
    var startupTimeQValue := TakeWithAlias(data, StartupTimeQ, QuickClaw);
    normalized := normalized.(startupTimeQ := startupTimeQValue);
    normalized := normalized.(startupTimePlus := Field(data, StartupTimePlus));
    normalized := normalized.(recoveryTime := Field(data, RecoveryTime));
    normalized := normalized.(totalTime := Field(data, TotalTime));
    normalized := normalized.(totalTimePlus := Field(data, TotalTimePlus));
    normalized := normalized.(dps := Field(data, Dps));
    var directAttackValue := TakeWithAlias(data, DirectAttack, Contact);
    normalized := normalized.(directAttack := directAttackValue);
    var fingerWagValue := TakeWithAlias(data, FingerWag, Finger);
    normalized := normalized.(fingerWag := fingerWagValue);
    normalized := normalized.(protect := Field(data, Protect));
    normalized := normalized.(substitute := Field(data, Substitute));
    var rangeValue := TakeWithAlias(data, Range, LegacyRange);
    normalized := normalized.(range := rangeValue);
    normalized := normalized.(effect := Field(data, Effect));
    normalized := normalized.(pageUrl := Field(data, PageUrl));
    var startupPlus := MirrorIfNone(normalized.startupTimePlus, normalized.startupTime);
    normalized := normalized.(startupTimePlus := startupPlus);
    var totalPlus := MirrorIfNone(normalized.totalTimePlus, normalized.totalTime);
    normalized := normalized.(totalTimePlus := totalPlus);
  }

  // ---------------------------------------------------------------------
  // The SET list of the update

  /** `mapping` of `update_move_record_cloud`: the column each normalised
      key is written to, the legacy alias columns included. */
  function Mapping(): seq<(Key, string)> {
    [(Name, "name"), (Type, "type"), (Category, "category"), (Power, "power"),
     (ActivationTime, "activation_time"), (StartupTime, "startup_time"),
     (StartupTimeQ, "startup_time_q"), (StartupTimeQ, "startup_time_quickclaw"),
     (StartupTimePlus, "startup_time_plus"), (RecoveryTime, "recovery_time"),
     (TotalTime, "total_time"), (TotalTimePlus, "total_time_plus"), (Dps, "dps"),
     (DirectAttack, "direct_attack"), (DirectAttack, "contact"),
     (FingerWag, "finger_wag"), (FingerWag, "finger"), (Protect, "protect"),
     (Substitute, "substitute"), (Range, "range_"), (Range, "range"),
     (Effect, "effect"), (PageUrl, "page_url")]
  }

  /** No mapped column holds a `?`. */
  lemma MappingHasNoPlaceholder()
    ensures AllNoPlaceholder(Values(Mapping()))
  {
    forall i | 0 <= i < |Mapping()| ensures NoPlaceholder(Mapping()[i].1) {
    }
  }

  /** `name` is the first mapped column and no other entry writes it. */
  lemma MappingNamesOnce()
    ensures Mapping()[0] == (Name, "name")
    ensures forall i :: 1 <= i < |Mapping()| ==> Mapping()[i].1 != "name"
  {
  }

  /** The (column, value) pairs of the SET list: the entries of `m` whose
      column exists, in the order of `m`, each with its key's value. */
  function Assigned(m: seq<(Key, string)>, existing: set<string>, n: Normalized): seq<(string, Value)>
    decreases |m|
  {
    if m == [] then []
    else if m[0].1 in existing then [(m[0].1, n.Get(m[0].0))] + Assigned(m[1..], existing, n)
    else Assigned(m[1..], existing, n)
  }

  /** One step of the loop over `m`: entry `i` contributes its pair exactly
      when its column exists. */
  lemma AssignedStep(m: seq<(Key, string)>, i: nat, existing: set<string>, n: Normalized)
    requires i < |m|
    ensures Assigned(m[i..], existing, n) ==
      (if m[i].1 in existing then [(m[i].1, n.Get(m[i].0))] else []) + Assigned(m[i + 1..], existing, n)
  {
    assert m[i..][0] == m[i] && m[i..][1..] == m[i + 1..];
  }

  /** The SET columns are exactly the mapped columns that exist, in mapping
      order, each as often as it is mapped: `_select_existing_columns`
      applied to the mapping's columns. */
  lemma {:induction false} AssignedColumns(m: seq<(Key, string)>, existing: set<string>, n: Normalized)
    ensures Keys(Assigned(m, existing, n)) == Tools.SelectExistingColumns(Values(m), existing)
    decreases |m|
  {
    if m != [] {
      AssignedColumns(m[1..], existing, n);
      assert Values(m) == [m[0].1] + Values(m[1..]);
      Tools.SelectExistingColumnsCons(m[0].1, Values(m[1..]), existing);
      if m[0].1 in existing {
        KeysCons((m[0].1, n.Get(m[0].0)), Assigned(m[1..], existing, n));
      }
    }
  }

  /** Every SET value is the normalised value of a key mapped to that
      column. */
  lemma {:induction false} AssignedValues(m: seq<(Key, string)>, existing: set<string>, n: Normalized)
    ensures forall p :: p in Assigned(m, existing, n) ==> p.0 in existing && exists k :: (k, p.0) in m && p.1 == n.Get(k)
    decreases |m|
  {
    if m != [] {
      AssignedValues(m[1..], existing, n);
      forall p | p in Assigned(m, existing, n)
        ensures p.0 in existing && exists k :: (k, p.0) in m && p.1 == n.Get(k)
      {
        if p !in Assigned(m[1..], existing, n) {
          assert p == (m[0].1, n.Get(m[0].0)) && m[0] in m;
        } else {
          var k :| (k, p.0) in m[1..] && p.1 == n.Get(k);
          assert (k, p.0) in m;
        }
      }
    }
  }

  /** The SET list is empty exactly when no mapped column exists, and then
      no statement is issued. */
  lemma NothingToSetExactly(existing: set<string>, n: Normalized)
    ensures Assigned(Mapping(), existing, n) == [] <==> forall i :: 0 <= i < |Mapping()| ==> Mapping()[i].1 !in existing
  {
    AssignedColumns(Mapping(), existing, n);
    var cols := Tools.SelectExistingColumns(Values(Mapping()), existing);
    if Assigned(Mapping(), existing, n) == [] {
      assert cols == [];
      forall i | 0 <= i < |Mapping()| ensures Mapping()[i].1 !in existing {
        assert Values(Mapping())[i] in Values(Mapping());
      }
    } else {
      var p := Assigned(Mapping(), existing, n)[0];
      assert cols[0] in cols;
      var i :| 0 <= i < |Mapping()| && Values(Mapping())[i] == cols[0];
    }
  }

  /** The SET list names `name` exactly when the table has that column,
      and then assigns it the normalised `name`. */
  lemma NameAssignment(existing: set<string>, n: Normalized)
    ensures HasKey(Assigned(Mapping(), existing, n), "name") <==> "name" in existing
    ensures "name" in existing ==> LastValue(Assigned(Mapping(), existing, n), "name") == n.name
  {
    var m := Mapping();
    var rest := Assigned(m[1..], existing, n);
    MappingNamesOnce();
    AssignedColumns(m[1..], existing, n);
    assert !HasKey(rest, "name") by {
      forall i | 0 <= i < |rest| ensures rest[i].0 != "name" {
        assert Keys(rest)[i] in Tools.SelectExistingColumns(Values(m[1..]), existing);
        var j :| 0 <= j < |m[1..]| && Values(m[1..])[j] == rest[i].0;
        assert m[1..][j] == m[j + 1];
      }
    }
    if "name" in existing {
      assert Assigned(m, existing, n) == [("name", n.name)] + rest;
      LastValueConcat([("name", n.name)], rest, "name");
      assert HasKey(Assigned(m, existing, n), "name") by {
        assert Assigned(m, existing, n)[0].0 == "name";
      }
    } else {
      assert Assigned(m, existing, n) == rest;
    }
  }

  /** The loop over `mapping`: for each entry whose column exists, the
      column is appended to the SET list and its normalised value to the
      values. */
  method BuildSetClause(existing: set<string>, normalized: Normalized)
    returns (setColumns: seq<string>, values: seq<Value>)
    ensures setColumns == Keys(Assigned(Mapping(), existing, normalized))
    ensures values == Values(Assigned(Mapping(), existing, normalized))
  {
    setColumns := [];
    values := [];
    ghost var done: seq<(string, Value)> := [];
    for i := 0 to |Mapping()|
      invariant done + Assigned(Mapping()[i..], existing, normalized) == Assigned(Mapping(), existing, normalized)
      invariant setColumns == Keys(done) && values == Values(done)
    {
      var (key, col) := Mapping()[i];
      AssignedStep(Mapping(), i, existing, normalized);
      if col in existing {
        setColumns := setColumns + [col];
        values := values + [normalized.Get(key)];
        done := done + [(col, normalized.Get(key))];
      }
    }
  }

  /** One element of the SET list, `f"{col}=?"`. */
  function SetPart(col: string): string {
    Slot(col + "=")
  }

  function SetParts(cols: seq<string>): (parts: seq<string>)
    ensures |parts| == |cols| && forall i :: 0 <= i < |cols| ==> parts[i] == SetPart(cols[i])
  {
    seq(|cols|, i requires 0 <= i < |cols| => SetPart(cols[i]))
  }

  /** The statement the update executes and its parameters. */
  datatype UpdateStatement = UpdateStatement(sql: string, params: seq<Value>)

  /** `"UPDATE moves SET " + ", ".join(set_parts) + " WHERE id=?"`, with
      `move_id` appended to the values. */
  function UpdateStatementOf(setColumns: seq<string>, values: seq<Value>, moveId: int): UpdateStatement {
    UpdateStatement("UPDATE moves SET " + Join(SetParts(setColumns), ", ") + Slot(" WHERE id="), values + [VInt(moveId)])
  }

  lemma UpdateFragmentsPlain()
    ensures NoPlaceholder("UPDATE moves SET ") && NoPlaceholder(", ") && NoPlaceholder(" WHERE id=") && NoPlaceholder("=")
  {
  }

  lemma {:induction false} SetPartsPlaceholders(cols: seq<string>)
    requires AllNoPlaceholder(cols)
    ensures SumPlaceholders(SetParts(cols)) == |cols|
    decreases |cols|
  {
    if cols != [] {
      var init := cols[..|cols| - 1];
      var last := cols[|cols| - 1];
      assert AllNoPlaceholder(init) by {
        forall i | 0 <= i < |init| ensures NoPlaceholder(init[i]) { assert init[i] == cols[i]; }
      }
      SetPartsPlaceholders(init);
      assert SetParts(cols)[..|cols| - 1] == SetParts(init);
      UpdateFragmentsPlain();
      assert NoPlaceholder(last + "=") by {
        assert multiset(last + "=") == multiset(last) + multiset("=");
      }
      SlotPlaceholders(last + "=");
    }
  }

  /** The values list is one longer than the SET list and ends with
      `move_id`, and the statement has exactly one `?` per value. */
  lemma UpdateStatementBalanced(existing: set<string>, n: Normalized, moveId: int)
    ensures var a := Assigned(Mapping(), existing, n);
            var st := UpdateStatementOf(Keys(a), Values(a), moveId);
            |st.params| == |Keys(a)| + 1 && st.params[|Keys(a)|] == VInt(moveId) &&
            Placeholders(st.sql) == |st.params|
  {
    var a := Assigned(Mapping(), existing, n);
    var cols := Keys(a);
    AssignedColumns(Mapping(), existing, n);
    MappingHasNoPlaceholder();
    Tools.SelectedHaveNoPlaceholder(Values(Mapping()), existing);
    SetPartsPlaceholders(cols);
    UpdateFragmentsPlain();
    JoinPlaceholders(SetParts(cols), ", ");
    SlotPlaceholders(" WHERE id=");
    NoPlaceholderCount("UPDATE moves SET ");
    PlaceholdersConcat("UPDATE moves SET ", Join(SetParts(cols), ", "));
    PlaceholdersConcat("UPDATE moves SET " + Join(SetParts(cols), ", "), Slot(" WHERE id="));
  }
}
