/**
 * The Cemaden collector: a station's hourly rainfall table is split into
 * one document per day (hours shifted to UTC-3), and each day is merged into
 * the stored day file, unifying readings with the same timestamp.
 */
module CemadenDataScheduler {
  import opened Common
  import opened Text
  import opened Seqs
  import opened Sorting
  import opened Calendar

  /** A reading of a day file: Data_Hora_Medicao and Chuva_Adotada (null or a number as text). */
  datatype Reading = Reading(time: string, chuva: Option<string>)

  /** A day document: idestacao, codigoestacao, data, chuvaAcumulada (null, or the total) and dados. */
  datatype DayInfo = DayInfo(idestacao: string, codigoestacao: Option<string>, data: string,
                             chuvaAcumulada: Option<real>, dados: seq<Reading>)

  /** The timestamp that identifies a reading: `rec["Data_Hora_Medicao"].strip()`. */
  function StripKey(r: Reading): string
  {
    StripPy(r.time)
  }

  function TimeOf(r: Reading): string
  {
    r.time
  }

  // merge_day_info

  /** A dict from stripped timestamp to reading, with its keys in insertion order. */
  datatype Table = Table(keys: seq<string>, byTs: map<string, Reading>)

  /** Every listed key is in the map. */
  ghost predicate KeysIn(t: Table)
  {
    forall i :: 0 <= i < |t.keys| ==> t.keys[i] in t.byTs
  }

  /** No key is listed twice. */
  ghost predicate Unique(keys: seq<string>)
  {
    forall i, j :: 0 <= i < j < |keys| ==> keys[i] != keys[j]
  }

  /** The keys are exactly the map's, each listed once. */
  ghost predicate WellKeyed(t: Table)
  {
    KeysIn(t) && (forall k :: k in t.byTs ==> k in t.keys) && Unique(t.keys)
  }

  /** Each reading is filed under its own stripped timestamp. */
  ghost predicate Filed(t: Table, key: Reading -> string)
  {
    forall k :: k in t.byTs ==> key(t.byTs[k]) == k
  }

  /** The key depends on the timestamp alone: filling in a rainfall does not move a reading. */
  ghost predicate TimeKeyed(key: Reading -> string)
  {
    forall r: Reading, c: Option<string> {:trigger key(r.(chuva := c))} :: key(r.(chuva := c)) == key(r)
  }

  lemma {:induction false} StripKeyTimeKeyed()
    ensures TimeKeyed(StripKey)
  {
  }

  /**
   * One record of the de-duplicating loops: a new timestamp is added; a
   * repeated one only fills a null Chuva_Adotada of the record kept.
   */
  function Fill(t: Table, r: Reading, key: Reading -> string): (u: Table)
    ensures KeysIn(t) ==> KeysIn(u)
  {
    var ts := key(r);
    if ts in t.byTs then
      if t.byTs[ts].chuva.None? && r.chuva.Some? then t.(byTs := t.byTs[ts := t.byTs[ts].(chuva := r.chuva)]) else t
    else Table(t.keys + [ts], t.byTs[ts := r])
  }

  /** A day's list with repeated timestamps unified, as the loops fill existing_data and cleaned_novo. */
  function Clean(s: seq<Reading>, key: Reading -> string): (t: Table)
    ensures KeysIn(t)
  {
    if s == [] then Table([], map[]) else Fill(Clean(s[..|s| - 1], key), s[|s| - 1], key)
  }

  /** One entry of cleaned_novo applied to existing_data: added when new, else a non-null rainfall overwrites. */
  function Overlay(t: Table, ts: string, r: Reading): (u: Table)
    ensures KeysIn(t) ==> KeysIn(u)
  {
    if ts !in t.byTs then Table(t.keys + [ts], t.byTs[ts := r])
    else if r.chuva.Some? then t.(byTs := t.byTs[ts := t.byTs[ts].(chuva := r.chuva)])
    else t
  }

  /** The first n entries of c applied to t in c's order. */
  function OverlayAll(t: Table, c: Table, n: nat): (u: Table)
    requires KeysIn(c) && n <= |c.keys|
    ensures KeysIn(t) ==> KeysIn(u)
    ensures t.byTs.Keys <= u.byTs.Keys
  {
    if n == 0 then t else Overlay(OverlayAll(t, c, n - 1), c.keys[n - 1], c.byTs[c.keys[n - 1]])
  }

  /** `list(existing_data.values())` */
  function Values(t: Table): (r: seq<Reading>)
    requires KeysIn(t)
    ensures |r| == |t.keys|
  {
    seq(|t.keys|, i requires 0 <= i < |t.keys| => t.byTs[t.keys[i]])
  }

  /** The reading a merged timestamp ends with: the old one with a non-null new rainfall, or the new one. */
  function Combine(was: Table, now: Table, ts: string): Reading
    requires ts in was.byTs || ts in now.byTs
  {
    if ts !in was.byTs then now.byTs[ts]
    else if ts in now.byTs && now.byTs[ts].chuva.Some? then was.byTs[ts].(chuva := now.byTs[ts].chuva)
    else was.byTs[ts]
  }

  /** float(Chuva_Adotada), with null or unparseable values counting 0. */
  function RainValue(r: Reading, toFloat: string -> Option<real>): real
  {
    if r.chuva.Some? && toFloat(r.chuva.value).Some? then toFloat(r.chuva.value).value else 0.0
  }

  function TotalRain(s: seq<Reading>, toFloat: string -> Option<real>): real
  {
    if s == [] then 0.0 else TotalRain(s[..|s| - 1], toFloat) + RainValue(s[|s| - 1], toFloat)
  }

  /** `f"{total:.2f}" if total > 0 else "0.00"`, as a number. */
  function Accumulated(total: real): real
  {
    if total > 0.0 then total else 0.0
  }

  /** The merged readings: old and new de-duplicated by key, new applied over old, sorted by the raw timestamp. */
  function MergedReadings(antigo: seq<Reading>, novo: seq<Reading>, key: Reading -> string): seq<Reading>
  {
    var c := Clean(novo, key);
    SortBy(Values(OverlayAll(Clean(antigo, key), c, |c.keys|)), TimeOf, LexLe)
  }

  /** merge_day_info as a function: antigo with its dados and chuvaAcumulada replaced. */
  function MergedDay(antigo: DayInfo, novo: DayInfo, toFloat: string -> Option<real>): DayInfo
  {
    var merged := MergedReadings(antigo.dados, novo.dados, StripKey);
    antigo.(dados := merged, chuvaAcumulada := Some(Accumulated(TotalRain(merged, toFloat))))
  }

  /** One of the two de-duplicating loops (lines 15-21 and 24-30). */
  method CleanLoop(s: seq<Reading>) returns (keys: seq<string>, byTs: map<string, Reading>)
    ensures Table(keys, byTs) == Clean(s, StripKey)
  {
    keys, byTs := [], map[];
    var i := 0;
    while i < |s|
      invariant 0 <= i <= |s|
      invariant Table(keys, byTs) == Clean(s[..i], StripKey)
    {
      var rec := s[i];
      var ts := StripPy(rec.time);
      if ts in byTs {
        if byTs[ts].chuva.None? && rec.chuva.Some? {
          byTs := byTs[ts := byTs[ts].(chuva := rec.chuva)];
        }
      } else {
        byTs := byTs[ts := rec];
        keys := keys + [ts];
      }
      assert s[..i + 1][..i] == s[..i];
      i := i + 1;
    }
    assert s[..|s|] == s;
  }

  /** The loop of lines 32-37: cleaned_novo applied over existing_data in its insertion order. */
  method OverlayLoop(keys0: seq<string>, byTs0: map<string, Reading>, novoKeys: seq<string>, cleanedNovo: map<string, Reading>)
    returns (keys: seq<string>, existingData: map<string, Reading>)
    requires KeysIn(Table(novoKeys, cleanedNovo))
    ensures Table(keys, existingData) == OverlayAll(Table(keys0, byTs0), Table(novoKeys, cleanedNovo), |novoKeys|)
  {
    keys, existingData := keys0, byTs0;
    ghost var c := Table(novoKeys, cleanedNovo);
    var n := 0;
    while n < |novoKeys|
      invariant 0 <= n <= |novoKeys|
      invariant Table(keys, existingData) == OverlayAll(Table(keys0, byTs0), c, n)
    {
      var ts := novoKeys[n];
      var rec := cleanedNovo[ts];
      if ts !in existingData {
        existingData := existingData[ts := rec];
        keys := keys + [ts];
      } else if rec.chuva.Some? {
        existingData := existingData[ts := existingData[ts].(chuva := rec.chuva)];
      }
      n := n + 1;
    }
  }

  /** The loop of lines 42-50: the sum of the parseable Chuva_Adotada values. */
  method SumRain(mergedList: seq<Reading>, toFloat: string -> Option<real>) returns (totalChuva: real)
    ensures totalChuva == TotalRain(mergedList, toFloat)
  {
    totalChuva := 0.0;
    var k := 0;
    while k < |mergedList|
      invariant 0 <= k <= |mergedList|
      invariant totalChuva == TotalRain(mergedList[..k], toFloat)
    {
      var val := 0.0;
      if mergedList[k].chuva.Some? {
        var parsed := toFloat(mergedList[k].chuva.value);
        if parsed.Some? {
          val := parsed.value;
        }
      }
      assert mergedList[..k + 1][..k] == mergedList[..k];
      totalChuva := totalChuva + val;
      k := k + 1;
    }
    assert mergedList[..|mergedList|] == mergedList;
  }

  /** merge_day_info: the returned document is antigo with the merged dados and their total. */
  method MergeDayInfo(antigo: DayInfo, novo: DayInfo, toFloat: string -> Option<real>) returns (r: DayInfo)
    ensures r == MergedDay(antigo, novo, toFloat)
  {
    var keys0, existing0 := CleanLoop(antigo.dados);
    var novoKeys, cleanedNovo := CleanLoop(novo.dados);
    var keys, existingData := OverlayLoop(keys0, existing0, novoKeys, cleanedNovo);
    var mergedList := SortBy(Values(Table(keys, existingData)), TimeOf, LexLe);
    assert mergedList == MergedReadings(antigo.dados, novo.dados, StripKey);
    var totalChuva := SumRain(mergedList, toFloat);
    r := antigo.(dados := mergedList, chuvaAcumulada := Some(if totalChuva > 0.0 then totalChuva else 0.0));
  }

  // Properties of merge_day_info, for any key function and so for the stripped timestamp

  /** One record of a de-duplicating loop keeps the table well formed and adds its key. */
  lemma {:induction false} FillShape(t: Table, x: Reading, key: Reading -> string)
    requires TimeKeyed(key)
    requires WellKeyed(t) && Filed(t, key)
    ensures WellKeyed(Fill(t, x, key)) && Filed(Fill(t, x, key), key)
    ensures Fill(t, x, key).byTs.Keys == t.byTs.Keys + {key(x)}
  {
    if key(x) !in t.byTs {
      var u := Fill(t, x, key);
      forall k | k in u.byTs ensures k in u.keys {
        if k != key(x) {
          assert k in t.keys;
        }
      }
    }
  }

  /** A cleaned list is well keyed, files each reading under its key, and has the list's keys. */
  lemma {:induction false} CleanShape(s: seq<Reading>, key: Reading -> string)
    requires TimeKeyed(key)
    ensures WellKeyed(Clean(s, key)) && Filed(Clean(s, key), key)
    ensures Clean(s, key).byTs.Keys == KeySet(s, key)
    decreases |s|
  {
    if s != [] {
      var init, x := s[..|s| - 1], s[|s| - 1];
      assert s == init + [x];
      CleanShape(init, key);
      KeySetSnoc(init, x, key);
      FillShape(Clean(init, key), x, key);
    }
  }

  /** One entry applied by Overlay keeps the table well formed when it is filed under its key. */
  lemma {:induction false} OverlayShape(t: Table, ts: string, r: Reading, key: Reading -> string)
    requires TimeKeyed(key)
    requires WellKeyed(t) && Filed(t, key) && key(r) == ts
    ensures WellKeyed(Overlay(t, ts, r)) && Filed(Overlay(t, ts, r), key)
    ensures Overlay(t, ts, r).byTs.Keys == t.byTs.Keys + {ts}
  {
    if ts !in t.byTs {
      var u := Overlay(t, ts, r);
      forall k | k in u.byTs ensures k in u.keys {
        if k != ts {
          assert k in t.keys;
        }
      }
    }
  }

  /** Applying the first n entries of c adds exactly their keys. */
  lemma {:induction false} OverlayAllKeys(t: Table, c: Table, n: nat)
    requires KeysIn(c) && n <= |c.keys|
    ensures forall k :: k in OverlayAll(t, c, n).byTs <==> k in t.byTs || k in c.keys[..n]
    decreases n
  {
    if n > 0 {
      OverlayAllKeys(t, c, n - 1);
      var k := c.keys[n - 1];
      assert c.keys[..n] == c.keys[..n - 1] + [k];
      assert OverlayAll(t, c, n).byTs.Keys == OverlayAll(t, c, n - 1).byTs.Keys + {k};
    }
  }

  /** Applying the first n entries of c keeps the table well formed. */
  lemma {:induction false} OverlayAllShape(t: Table, c: Table, n: nat, key: Reading -> string)
    requires TimeKeyed(key)
    requires WellKeyed(t) && Filed(t, key) && KeysIn(c) && Filed(c, key) && n <= |c.keys|
    ensures WellKeyed(OverlayAll(t, c, n)) && Filed(OverlayAll(t, c, n), key)
    decreases n
  {
    if n > 0 {
      OverlayAllShape(t, c, n - 1, key);
      var k := c.keys[n - 1];
      OverlayShape(OverlayAll(t, c, n - 1), k, c.byTs[k], key);
    }
  }

  /** The reading a key ends with after applying c over t. */
  lemma {:induction false} OverlayAllLookup(t: Table, c: Table, n: nat, ts: string)
    requires KeysIn(c) && Unique(c.keys) && n <= |c.keys|
    requires ts in OverlayAll(t, c, n).byTs
    ensures ts in c.keys[..n] ==> ts in c.byTs && OverlayAll(t, c, n).byTs[ts] == Combine(t, c, ts)
    ensures ts !in c.keys[..n] ==> ts in t.byTs && OverlayAll(t, c, n).byTs[ts] == t.byTs[ts]
    decreases n
  {
    if n > 0 {
      var k := c.keys[n - 1];
      assert c.keys[..n] == c.keys[..n - 1] + [k];
      var prefix := OverlayAll(t, c, n - 1);
      if ts != k {
        OverlayAllLookup(t, c, n - 1, ts);
      } else {
        assert ts !in c.keys[..n - 1];
        if ts in prefix.byTs {
          OverlayAllLookup(t, c, n - 1, ts);
        }
      }
    }
  }

  /** The reading of a listed key is among the values. */
  lemma {:induction false} ValueAt(t: Table, k: string)
    requires KeysIn(t) && k in t.keys
    ensures t.byTs[k] in Values(t)
  {
    var i :| 0 <= i < |t.keys| && t.keys[i] == k;
    assert Values(t)[i] == t.byTs[k];
  }

  /** The values of a well-formed table have distinct keys, exactly the table's. */
  lemma {:induction false} ValuesOf(t: Table, key: Reading -> string)
    requires WellKeyed(t) && Filed(t, key)
    ensures forall k :: k in t.byTs ==> t.byTs[k] in Values(t)
    ensures KeySet(Values(t), key) == t.byTs.Keys
    ensures DistinctKeys(Values(t), key)
  {
    var v := Values(t);
    forall k | k in t.byTs ensures t.byTs[k] in v {
      var i :| 0 <= i < |t.keys| && t.keys[i] == k;
      assert v[i] == t.byTs[k];
    }
    forall k | k in KeySet(v, key) ensures k in t.byTs {
      var x :| x in v && key(x) == k;
      var i :| 0 <= i < |v| && v[i] == x;
    }
  }

  /** The merged table before sorting: well formed, keyed by the union of the keys. */
  lemma {:induction false} MergedTable(antigo: seq<Reading>, novo: seq<Reading>, key: Reading -> string)
    requires TimeKeyed(key)
    ensures var c := Clean(novo, key);
      var t := OverlayAll(Clean(antigo, key), c, |c.keys|);
      WellKeyed(t) && Filed(t, key) && t.byTs.Keys == KeySet(antigo, key) + KeySet(novo, key)
  {
    var c := Clean(novo, key);
    CleanShape(antigo, key);
    CleanShape(novo, key);
    OverlayAllShape(Clean(antigo, key), c, |c.keys|, key);
    OverlayAllKeys(Clean(antigo, key), c, |c.keys|);
    assert c.keys[..|c.keys|] == c.keys;
  }

  /**
   * The merged readings have distinct keys, and their set of keys is the
   * union of the old and the new ones; they are sorted ascending by the raw
   * timestamp text.
   */
  lemma {:induction false} MergedTimestamps(antigo: seq<Reading>, novo: seq<Reading>, key: Reading -> string)
    requires TimeKeyed(key)
    ensures var m := MergedReadings(antigo, novo, key);
      DistinctKeys(m, key)
      && KeySet(m, key) == KeySet(antigo, key) + KeySet(novo, key)
      && SortedBy(m, TimeOf, LexLe)
  {
    var c := Clean(novo, key);
    var t := OverlayAll(Clean(antigo, key), c, |c.keys|);
    MergedTable(antigo, novo, key);
    ValuesOf(t, key);
    DistinctKeysPermutation(Values(t), MergedReadings(antigo, novo, key), key);
    LexOrder();
    SortBySorted(Values(t), TimeOf, LexLe);
  }

  /**
   * For each key of either list, the merged list holds the reading it ends
   * with: the old one, with a non-null new Chuva_Adotada overwriting its
   * rainfall, or the new one when the key is new.
   */
  lemma {:induction false} MergedReadingOf(antigo: seq<Reading>, novo: seq<Reading>, key: Reading -> string, ts: string)
    requires TimeKeyed(key)
    requires ts in Clean(antigo, key).byTs || ts in Clean(novo, key).byTs
    ensures Combine(Clean(antigo, key), Clean(novo, key), ts) in MergedReadings(antigo, novo, key)
  {
    var a, c := Clean(antigo, key), Clean(novo, key);
    var n := |c.keys|;
    var t := OverlayAll(a, c, n);
    CleanShape(antigo, key);
    CleanShape(novo, key);
    assert c.keys[..n] == c.keys;
    OverlayAllKeys(a, c, n);
    if ts in c.byTs {
      assert ts in c.keys;
    }
    OverlayAllLookup(a, c, n, ts);
    assert t.byTs[ts] == Combine(a, c, ts);
    OverlayAllShape(a, c, n, key);
    ValueAt(t, ts);
    assert t.byTs[ts] in multiset(Values(t));
  }

  /** The first non-null rainfall of a list, or null. */
  function FirstChuva(s: seq<Reading>): Option<string>
  {
    if s == [] then None
    else if FirstChuva(s[..|s| - 1]).Some? then FirstChuva(s[..|s| - 1]) else s[|s| - 1].chuva
  }

  lemma {:induction false} FirstChuvaSnoc(s: seq<Reading>, x: Reading)
    ensures FirstChuva(s + [x]) == if FirstChuva(s).Some? then FirstChuva(s) else x.chuva
  {
    assert (s + [x])[..|s|] == s;
  }

  /**
   * Within one list, a repeated key keeps its first record, whose null
   * Chuva_Adotada is filled from the first later duplicate that has one.
   */
  lemma {:induction false} CleanKeepsFirst(s: seq<Reading>, key: Reading -> string, ts: string)
    requires TimeKeyed(key)
    requires ts in Clean(s, key).byTs
    ensures KeyFilter(s, key, ts) != []
    ensures Clean(s, key).byTs[ts] == KeyFilter(s, key, ts)[0].(chuva := FirstChuva(KeyFilter(s, key, ts)))
    decreases |s|
  {
    var init, x := s[..|s| - 1], s[|s| - 1];
    assert s == init + [x];
    var t := Clean(init, key);
    assert Clean(s, key) == Fill(t, x, key);
    KeyFilterSnoc(init, x, key, ts);
    var f := KeyFilter(init, key, ts);
    if ts in t.byTs {
      CleanKeepsFirst(init, key, ts);
      if key(x) == ts {
        FirstChuvaSnoc(f, x);
        assert (f + [x])[0] == f[0];
      }
    } else {
      CleanShape(init, key);
      KeyFilterAbsent(init, key, ts);
      assert KeyFilter(s, key, ts) == [x];
      FirstChuvaSnoc([], x);
      assert [] + [x] == [x];
    }
  }

  /** chuvaAcumulada is never negative, and it is the total whenever the total is positive; nothing else changes. */
  lemma {:induction false} AccumulatedRain(antigo: DayInfo, novo: DayInfo, toFloat: string -> Option<real>)
    ensures var r := MergedDay(antigo, novo, toFloat);
      r.chuvaAcumulada.Some? && r.chuvaAcumulada.value >= 0.0
      && (TotalRain(r.dados, toFloat) > 0.0 <==> r.chuvaAcumulada.value > 0.0)
      && (r.chuvaAcumulada.value > 0.0 ==> r.chuvaAcumulada.value == TotalRain(r.dados, toFloat))
      && r.(dados := antigo.dados, chuvaAcumulada := antigo.chuvaAcumulada) == antigo
  {
  }

  // process_cemaden_data

  /** The "codEstacao" key of the station object: absent, null, or a code. */
  datatype Cod = CodAbsent | CodNull | CodText(text: string)

  /** The "estacao" key: a dict (an absent key reads as {}), or a value without `.get`, such as null. */
  datatype Estacao = EstacaoDict(codEstacao: Cod) | EstacaoNotDict

  /**
   * The JSON payload of the hourly endpoint: anything but a dict, or its
   * four keys (absent or null lists read as empty); a row of acumulados may
   * itself be null.
   */
  datatype Payload = NotDict
                   | Dict(datas: seq<string>, horarios: seq<string>, acumulados: seq<Option<seq<Option<string>>>>,
                          estacao: Estacao)

  /** Python's int() and float() on text and the "%.2f" format, which the model takes as given. */
  datatype Conv = Conv(toInt: string -> Option<int>, toFloat: string -> Option<real>, fmt2: real -> string)

  /**
   * The exceptions that escape the function: `replace(hour=...)` outside
   * 0..23, a date before year 1, `estacao_info.get` on a station object
   * that is not a dict (AttributeError), and `len(acumulados)` on a null
   * row (TypeError).
   */
  datatype Error = HourOutOfRange | DateOverflow | EstacaoWithoutGet | RowWithoutLen

  /** `s.replace(c, "")` */
  function RemoveAll(s: string, c: char): (r: string)
    ensures c !in r && |r| <= |s|
  {
    if s == [] then [] else RemoveAll(s[..|s| - 1], c) + (if s[|s| - 1] == c then [] else [s[|s| - 1]])
  }

  /** `int(hora_str.replace("h", ""))`, or 0 when it raises. */
  function HourOf(h: string, conv: Conv): int
  {
    match conv.toInt(RemoveAll(h, 'h'))
    case Some(n) => n
    case None => 0
  }

  /** strptime's `%d`: 1 to 31 in one or two digits, or a space and one digit. */
  function DayField(p: string): Option<int>
  {
    if |p| == 1 && IsDigit(p[0]) && p[0] != '0' then Some(DigitValue(p[0]))
    else if |p| == 2 && p[0] == ' ' && IsDigit(p[1]) && p[1] != '0' then Some(DigitValue(p[1]))
    else if |p| == 2 && AllDigits(p) && 1 <= DigitsValue(p) <= 31 then Some(DigitsValue(p))
    else None
  }

  /** strptime's `%m`: 1 to 12 in one or two digits. */
  function MonthField(p: string): Option<int>
  {
    if |p| == 1 && IsDigit(p[0]) && p[0] != '0' then Some(DigitValue(p[0]))
    else if |p| == 2 && AllDigits(p) && 1 <= DigitsValue(p) <= 12 then Some(DigitsValue(p))
    else None
  }

  /** strptime's `%Y`: exactly four digits. */
  function YearField(p: string): (r: Option<int>)
    ensures r.Some? ==> 0 <= r.value <= 9999
  {
    if |p| == 4 && AllDigits(p) then
      DigitsRoundTrip(p);
      assert Pow10(4) == 10000;
      Some(DigitsValue(p))
    else None
  }

  /** `datetime.strptime(dt_str, "%d/%m/%Y")`: None where it raises (no match, or no such date). */
  function ParseDmy(s: string): (r: Option<Date>)
    ensures r.Some? ==> ValidDate(r.value.year, r.value.month, r.value.day) && 1 <= r.value.year <= 9999
  {
    var parts := Split(s, '/');
    if |parts| != 3 then None
    else
      var d, m, y := DayField(parts[0]), MonthField(parts[1]), YearField(parts[2]);
      if d.None? || m.None? || y.None? then None
      else if y.value < 1 || !ValidDate(y.value, m.value, d.value) then None
      else Some(Date(y.value, m.value, d.value))
  }

  /** A date written as `dd/mm/yyyy`, the form the endpoint sends. */
  function DmyText(d: Date): string
    requires d.year >= 0 && d.month >= 0 && d.day >= 0
  {
    PadDigits(d.day, 2) + "/" + PadDigits(d.month, 2) + "/" + PadDigits(d.year, 4)
  }

  /** `strftime("%Y-%m-%d")` */
  function IsoDate(d: Date): string
    requires d.year >= 0 && d.month >= 0 && d.day >= 0
  {
    PadDigits(d.year, 4) + "-" + PadDigits(d.month, 2) + "-" + PadDigits(d.day, 2)
  }

  /** `strftime("%Y-%m-%d %H:%M:%S.0")` of a whole hour. */
  function StampText(day: Date, hh: nat): string
    requires day.year >= 0 && day.month >= 0 && day.day >= 0
  {
    IsoDate(day) + " " + PadDigits(hh, 2) + ":00:00.0"
  }

  /** The text of hour hh of a day, or the overflow below year 1. */
  function HourTextOf(day: Date, hh: nat): Result<string, Error>
    requires ValidDate(day.year, day.month, day.day)
  {
    if day.year < 1 then Failure(DateOverflow) else Success(StampText(day, hh))
  }

  /** Hour h of day number `days`, from 24 hours before it to its last hour, carried as datetime does. */
  function Shifted(days: int, h: int): Result<string, Error>
    requires -24 <= h < 24
  {
    if h >= 0 then HourTextOf(CivilFromDays(days), h) else HourTextOf(CivilFromDays(days - 1), h + 24)
  }

  /** `(date_obj.replace(hour=h) - timedelta(hours=3)).strftime("%Y-%m-%d %H:%M:%S.0")` */
  function Medicao(d: Date, hour: int): Result<string, Error>
    requires ValidDate(d.year, d.month, d.day)
  {
    if !(0 <= hour <= 23) then Failure(HourOutOfRange)
    else Shifted(DaysFromCivil(d.year, d.month, d.day), hour - 3)
  }

  /** `(chuva_val, chuva_str)` of one cell: the number and its "%.2f" text, or 0 and null. */
  function RainOf(raw: Option<string>, conv: Conv): (real, Option<string>)
  {
    if raw.Some? && conv.toFloat(raw.value).Some? then
      var v := conv.toFloat(raw.value).value;
      (v, Some(conv.fmt2(v)))
    else (0.0, None)
  }

  /** Whether column j (hour `hour`) of day row i belongs to that day. */
  predicate Kept(i: int, j: int, hour: int, startingHour: int, columns: int)
  {
    if i == 0 then startingHour <= hour <= 23
    else 0 <= hour < startingHour || (j == columns - 1 && hour == startingHour)
  }

  /** The registros and total_chuva of one day. */
  datatype RowOut = RowOut(registros: seq<Reading>, total: real)

  /** The timestamps of the hours of a day, as the inner loop computes them. */
  function StampOf(d: Date): int -> Result<string, Error>
    requires ValidDate(d.year, d.month, d.day)
  {
    hour => Medicao(d, hour)
  }

  /**
   * The inner loop over the first n columns of row i (lines 112-150), where
   * stamp gives the timestamp of an hour of the row's date.
   */
  function Row(i: int, stamp: int -> Result<string, Error>, horarios: seq<string>, acumulados: seq<Option<string>>,
               startingHour: int, conv: Conv, n: nat): Result<RowOut, Error>
    requires n <= |horarios|
  {
    if n == 0 then Success(RowOut([], 0.0))
    else
      var prev := Row(i, stamp, horarios, acumulados, startingHour, conv, n - 1);
      var j := n - 1;
      var hour := HourOf(horarios[j], conv);
      if prev.Failure? || j >= |acumulados| || !Kept(i, j, hour, startingHour, |horarios|) then prev
      else
        match stamp(hour)
        case Failure(e) => Failure(e)
        case Success(t) =>
          var (v, str) := RainOf(acumulados[j], conv);
          Success(RowOut(prev.value.registros + [Reading(t, str)], prev.value.total + v))
  }

  /** The document of a day whose row parsed. */
  function DayDoc(stationId: string, cod: Option<string>, d: Date, row: RowOut): DayInfo
    requires d.year >= 0 && d.month >= 0 && d.day >= 0
  {
    DayInfo(stationId, cod, IsoDate(d), Some(Accumulated(row.total)), SortBy(row.registros, TimeOf, LexLe))
  }

  /** One date of the outer loop: None when it is skipped, else its document or the exception its row raises. */
  function DayResult(p: Payload, stationId: string, cod: Option<string>, startingHour: int, conv: Conv, i: nat)
    : Option<Result<DayInfo, Error>>
    requires p.Dict? && i < |p.datas|
  {
    var d := ParseDmy(p.datas[i]);
    if d.None? || i >= |p.acumulados| then None
    else if p.acumulados[i].None? then
      if p.horarios == [] then Some(Success(DayDoc(stationId, cod, d.value, RowOut([], 0.0))))
      else Some(Failure(RowWithoutLen))
    else
      match Row(i, StampOf(d.value), p.horarios, p.acumulados[i].value, startingHour, conv, |p.horarios|)
      case Failure(e) => Some(Failure(e))
      case Success(row) => Some(Success(DayDoc(stationId, cod, d.value, row)))
  }

  /** The step of the outer loop for a payload, station and starting hour, as a function of the date's index. */
  function DayStep(p: Payload, stationId: string, cod: Option<string>, startingHour: int, conv: Conv): nat -> Option<Result<DayInfo, Error>>
    requires p.Dict?
  {
    (i: nat) => if i < |p.datas| then DayResult(p, stationId, cod, startingHour, conv, i) else None
  }

  /**
   * The outer loop over the first m dates (lines 97-160), where day gives
   * the outcome of one date: skipped, an exception, or a document.
   */
  function Days(day: nat -> Option<Result<DayInfo, Error>>, m: nat): Result<seq<DayInfo>, Error>
  {
    if m == 0 then Success([])
    else
      var prev := Days(day, m - 1);
      if prev.Failure? || day(m - 1).None? then prev
      else if day(m - 1).value.Failure? then Failure(day(m - 1).value.error)
      else Success(prev.value + [day(m - 1).value.value])
  }

  /**
   * `estacao_info.get("codEstacao", str(station_id))`: the station id when
   * the key is absent, and None (stored as a null codigoestacao) when it is null.
   */
  function CodOf(p: Payload, stationId: string): (r: Option<string>)
    requires p.Dict? && p.estacao.EstacaoDict?
    ensures r.None? <==> p.estacao.codEstacao.CodNull?
    ensures p.estacao.codEstacao.CodAbsent? ==> r == Some(stationId)
  {
    match p.estacao.codEstacao
    case CodAbsent => Some(stationId)
    case CodNull => None
    case CodText(s) => Some(s)
  }

  /** The lists process_cemaden_data needs are all there and non-empty. */
  predicate Complete(p: Payload)
  {
    p.Dict? && p.datas != [] && p.horarios != [] && p.acumulados != []
  }

  /** A payload whose dates are processed: complete, with a station object `.get` works on. */
  predicate Processable(p: Payload)
  {
    Complete(p) && p.estacao.EstacaoDict?
  }

  /** The day step of a processable payload: its station code, and the hour of the first column as starting hour. */
  function ProcessStep(p: Payload, stationId: string, conv: Conv): nat -> Option<Result<DayInfo, Error>>
    requires Processable(p)
  {
    DayStep(p, stationId, CodOf(p, stationId), HourOf(p.horarios[0], conv), conv)
  }

  /**
   * process_cemaden_data: the day documents, or the exception that escapes.
   * The station object is read before the lists are checked.
   */
  function ProcessCemaden(p: Payload, stationId: string, conv: Conv): Result<seq<DayInfo>, Error>
  {
    if p.NotDict? then Success([])
    else if p.estacao.EstacaoNotDict? then Failure(EstacaoWithoutGet)
    else if !Complete(p) then Success([])
    else Days(ProcessStep(p, stationId, conv), |p.datas|)
  }

  /** An exception in a column ends the row: the later columns are never reached. */
  lemma {:induction false} RowFailureStays(i: int, stamp: int -> Result<string, Error>, horarios: seq<string>,
                                           acumulados: seq<Option<string>>, startingHour: int, conv: Conv, a: nat, b: nat)
    requires a <= b <= |horarios|
    requires Row(i, stamp, horarios, acumulados, startingHour, conv, a).Failure?
    ensures Row(i, stamp, horarios, acumulados, startingHour, conv, b) == Row(i, stamp, horarios, acumulados, startingHour, conv, a)
    decreases b
  {
    if a < b {
      RowFailureStays(i, stamp, horarios, acumulados, startingHour, conv, a, b - 1);
    }
  }

  /** An exception in a day ends the run: the later dates are never reached. */
  lemma {:induction false} DaysFailureStays(day: nat -> Option<Result<DayInfo, Error>>, a: nat, b: nat)
    requires a <= b
    requires Days(day, a).Failure?
    ensures Days(day, b) == Days(day, a)
    decreases b
  {
    if a < b {
      DaysFailureStays(day, a, b - 1);
    }
  }

  /** One date of the outer loop after a run of successes. */
  lemma {:induction false} DaysStep(day: nat -> Option<Result<DayInfo, Error>>, i: nat, done: seq<DayInfo>)
    requires Days(day, i) == Success(done)
    ensures Days(day, i + 1) == if day(i).None? then Success(done)
                                else if day(i).value.Failure? then Failure(day(i).value.error)
                                else Success(done + [day(i).value.value])
  {
  }

  /** The inner loop: registros and total_chuva of row i, or the exception a kept column raises. */
  method RowRecords(i: int, stamp: int -> Result<string, Error>, horarios: seq<string>, acumulados: seq<Option<string>>,
                    startingHour: int, conv: Conv)
    returns (res: Result<RowOut, Error>)
    ensures res == Row(i, stamp, horarios, acumulados, startingHour, conv, |horarios|)
  {
    var registros: seq<Reading> := [];
    var totalChuva := 0.0;
    var j := 0;
    while j < |horarios|
      invariant 0 <= j <= |horarios|
      invariant Row(i, stamp, horarios, acumulados, startingHour, conv, j) == Success(RowOut(registros, totalChuva))
    {
      var horaN := HourOf(horarios[j], conv);
      if j < |acumulados| {
        var chuvaVal, chuvaStr := 0.0, None;
        if acumulados[j].Some? {
          var parsed := conv.toFloat(acumulados[j].value);
          if parsed.Some? {
            chuvaVal, chuvaStr := parsed.value, Some(conv.fmt2(parsed.value));
          }
        }
        if Kept(i, j, horaN, startingHour, |horarios|) {
          var dtMedicao := stamp(horaN);
          if dtMedicao.Failure? {
            RowFailureStays(i, stamp, horarios, acumulados, startingHour, conv, j + 1, |horarios|);
            return Failure(dtMedicao.error);
          }
          registros := registros + [Reading(dtMedicao.value, chuvaStr)];
          totalChuva := totalChuva + chuvaVal;
        }
      }
      j := j + 1;
    }
    res := Success(RowOut(registros, totalChuva));
  }

  /** One date of the loop (lines 98-160): skipped, the exception its row raises, or its document. */
  method DayOf(data: Payload, stationId: string, codEstacao: Option<string>, startingHour: int, conv: Conv, i: nat)
    returns (o: Option<Result<DayInfo, Error>>)
    requires data.Dict? && i < |data.datas|
    ensures o == DayResult(data, stationId, codEstacao, startingHour, conv, i)
  {
    var dateObj := ParseDmy(data.datas[i]);
    if dateObj.None? || i >= |data.acumulados| {
      return None;
    }
    if data.acumulados[i].None? {
      if data.horarios == [] {
        return Some(Success(DayDoc(stationId, codEstacao, dateObj.value, RowOut([], 0.0))));
      }
      return Some(Failure(RowWithoutLen));
    }
    var row := RowRecords(i, StampOf(dateObj.value), data.horarios, data.acumulados[i].value, startingHour, conv);
    if row.Failure? {
      return Some(Failure(row.error));
    }
    o := Some(Success(DayDoc(stationId, codEstacao, dateObj.value, row.value)));
  }

  /** The loop over the dates (lines 97-160). */
  method DaysLoop(data: Payload, stationId: string, codEstacao: Option<string>, startingHour: int, conv: Conv)
    returns (res: Result<seq<DayInfo>, Error>)
    requires data.Dict?
    ensures res == Days(DayStep(data, stationId, codEstacao, startingHour, conv), |data.datas|)
  {
    var resultados: seq<DayInfo> := [];
    ghost var step := DayStep(data, stationId, codEstacao, startingHour, conv);
    var i := 0;
    while i < |data.datas|
      invariant 0 <= i <= |data.datas|
      invariant Days(step, i) == Success(resultados)
    {
      var o := DayOf(data, stationId, codEstacao, startingHour, conv, i);
      assert step(i) == o;
      DaysStep(step, i, resultados);
      if o.Some? {
        if o.value.Failure? {
          DaysFailureStays(step, i + 1, |data.datas|);
          return Failure(o.value.error);
        }
        resultados := resultados + [o.value.value];
      }
      i := i + 1;
    }
    res := Success(resultados);
  }

  /** process_cemaden_data: the guards, then the loops over the dates and, within each, the columns. */
  method ProcessCemadenData(data: Payload, stationId: string, conv: Conv) returns (res: Result<seq<DayInfo>, Error>)
    ensures res == ProcessCemaden(data, stationId, conv)
  {
    if data.NotDict? {
      return Success([]);
    }
    if data.estacao.EstacaoNotDict? {
      return Failure(EstacaoWithoutGet);
    }
    var codEstacao := CodOf(data, stationId);
    if data.datas == [] || data.horarios == [] || data.acumulados == [] {
      return Success([]);
    }
    var startingHour := HourOf(data.horarios[0], conv);
    res := DaysLoop(data, stationId, codEstacao, startingHour, conv);
  }

  // Properties of process_cemaden_data

  /** A date the endpoint writes as dd/mm/yyyy is read back as itself. */
  lemma {:induction false} ParseDmyRoundTrip(d: Date)
    requires ValidDate(d.year, d.month, d.day) && 1 <= d.year <= 9999
    ensures ParseDmy(DmyText(d)) == Some(d)
  {
    DmySplit(d);
    DmyFields(d);
  }

  /** The three fields of dd/mm/yyyy. */
  lemma {:induction false} DmySplit(d: Date)
    requires d.year >= 0 && d.month >= 0 && d.day >= 0
    ensures Split(DmyText(d), '/') == [PadDigits(d.day, 2), PadDigits(d.month, 2), PadDigits(d.year, 4)]
  {
    var a, b, c := PadDigits(d.day, 2), PadDigits(d.month, 2), PadDigits(d.year, 4);
    assert DmyText(d) == a + ['/'] + (b + ['/'] + c);
    assert '/' !in a && '/' !in b && '/' !in c by {
      assert !IsDigit('/');
    }
    SplitAt(a, '/', b + ['/'] + c);
    SplitAt(b, '/', c);
    SplitNone(c, '/');
  }

  /** Each padded field reads back as its number. */
  lemma {:induction false} DmyFields(d: Date)
    requires ValidDate(d.year, d.month, d.day) && 1 <= d.year <= 9999
    ensures DayField(PadDigits(d.day, 2)) == Some(d.day)
    ensures MonthField(PadDigits(d.month, 2)) == Some(d.month)
    ensures YearField(PadDigits(d.year, 4)) == Some(d.year)
  {
    PaddedField(d.day, 31);
    PaddedField(d.month, 12);
    assert Pow10(4) == 10000;
    PadDigitsValue(d.year, 4);
  }

  lemma {:induction false} PaddedField(n: int, top: int)
    requires 1 <= n <= top <= 99
    ensures var p := PadDigits(n, 2);
      |p| == 2 && AllDigits(p) && DigitsValue(p) == n && p[0] != ' '
  {
    assert Pow10(2) == 100;
    PadDigitsValue(n, 2);
    assert IsDigit(PadDigits(n, 2)[0]);
  }

  /** From 03h on the timestamp keeps the date, at hour - 3. */
  lemma {:induction false} MedicaoSameDay(d: Date, hour: int)
    requires ValidDate(d.year, d.month, d.day) && d.year >= 1 && 3 <= hour <= 23
    ensures Medicao(d, hour) == Success(StampText(d, hour - 3))
  {
    CivilRoundTrip(d.year, d.month, d.day);
  }

  /**
   * Before 03h the timestamp is on the previous date, at hour + 21; only
   * 01/01/0001 has no previous date from year 1 on, and raises.
   */
  lemma {:induction false} MedicaoPreviousDay(d: Date, hour: int)
    requires ValidDate(d.year, d.month, d.day) && d.year >= 1 && 0 <= hour < 3
    ensures Medicao(d, hour).Success? <==> d != Date(1, 1, 1)
    ensures Medicao(d, hour).Success? ==>
      var prev := CivilFromDays(DaysFromCivil(d.year, d.month, d.day) - 1);
      DaysFromCivil(prev.year, prev.month, prev.day) + 1 == DaysFromCivil(d.year, d.month, d.day)
      && Medicao(d, hour).value == StampText(prev, hour + 21)
  {
    PreviousDayFromYearOne(d.year, d.month, d.day);
  }

  /** The columns among the first n of row i that the day keeps: a cell exists and the hour is kept. */
  function KeptColumns(i: int, horarios: seq<string>, acumulados: seq<Option<string>>, startingHour: int, conv: Conv, n: nat)
    : (cols: seq<nat>)
    requires n <= |horarios|
    ensures forall k :: 0 <= k < |cols| ==> cols[k] < n && cols[k] < |acumulados|
  {
    if n == 0 then []
    else
      var prev := KeptColumns(i, horarios, acumulados, startingHour, conv, n - 1);
      var j := n - 1;
      if j < |acumulados| && Kept(i, j, HourOf(horarios[j], conv), startingHour, |horarios|) then prev + [j] else prev
  }

  /** Indices in increasing order. */
  predicate Increasing(idx: seq<nat>)
  {
    forall k, l :: 0 <= k < l < |idx| ==> idx[k] < idx[l]
  }

  /** Every listed column of row i has a kept hour. */
  predicate AllKept(i: int, horarios: seq<string>, startingHour: int, conv: Conv, cols: seq<nat>)
  {
    forall k :: 0 <= k < |cols| && cols[k] < |horarios| ==> Kept(i, cols[k], HourOf(horarios[cols[k]], conv), startingHour, |horarios|)
  }

  /** Every listed column's hour has a timestamp. */
  predicate StampsSucceed(stamp: int -> Result<string, Error>, horarios: seq<string>, conv: Conv, cols: seq<nat>)
  {
    forall k :: 0 <= k < |cols| && cols[k] < |horarios| ==> stamp(HourOf(horarios[cols[k]], conv)).Success?
  }

  /** One reading per listed column, in order: its hour's timestamp and its cell's "%.2f" text. */
  predicate ReadingsOf(regs: seq<Reading>, stamp: int -> Result<string, Error>, horarios: seq<string>,
                       acumulados: seq<Option<string>>, conv: Conv, cols: seq<nat>)
  {
    |regs| == |cols|
    && forall k :: 0 <= k < |cols| && cols[k] < |horarios| && cols[k] < |acumulados| ==>
         stamp(HourOf(horarios[cols[k]], conv)) == Success(regs[k].time) && regs[k].chuva == RainOf(acumulados[cols[k]], conv).1
  }

  /** The kept columns are kept hours, in increasing order. */
  lemma {:induction false} KeptColumnsOrdered(i: int, horarios: seq<string>, acumulados: seq<Option<string>>,
                                              startingHour: int, conv: Conv, n: nat)
    requires n <= |horarios|
    ensures AllKept(i, horarios, startingHour, conv, KeptColumns(i, horarios, acumulados, startingHour, conv, n))
    ensures Increasing(KeptColumns(i, horarios, acumulados, startingHour, conv, n))
  {
    if n > 0 {
      KeptColumnsOrdered(i, horarios, acumulados, startingHour, conv, n - 1);
      var prev := KeptColumns(i, horarios, acumulados, startingHour, conv, n - 1);
      var j := n - 1;
      if j < |acumulados| && Kept(i, j, HourOf(horarios[j], conv), startingHour, |horarios|) {
        assert KeptColumns(i, horarios, acumulados, startingHour, conv, n) == prev + [j];
        IncreasingSnoc(prev, j);
        AllKeptSnoc(i, horarios, startingHour, conv, prev, j);
      } else {
        assert KeptColumns(i, horarios, acumulados, startingHour, conv, n) == prev;
      }
    }
  }

  lemma {:induction false} IncreasingSnoc(idx: seq<nat>, j: nat)
    requires Increasing(idx) && forall k :: 0 <= k < |idx| ==> idx[k] < j
    ensures Increasing(idx + [j])
  {
  }

  lemma {:induction false} AllKeptSnoc(i: int, horarios: seq<string>, startingHour: int, conv: Conv, cols: seq<nat>, j: nat)
    requires AllKept(i, horarios, startingHour, conv, cols)
    requires j < |horarios| && Kept(i, j, HourOf(horarios[j], conv), startingHour, |horarios|)
    ensures AllKept(i, horarios, startingHour, conv, cols + [j])
  {
    forall k | 0 <= k < |cols + [j]| && (cols + [j])[k] < |horarios|
      ensures Kept(i, (cols + [j])[k], HourOf(horarios[(cols + [j])[k]], conv), startingHour, |horarios|)
    {
      if k < |cols| {
        assert (cols + [j])[k] == cols[k];
      }
    }
  }

  /** Every column with a cell and a kept hour is a kept column. */
  lemma {:induction false} KeptColumnsComplete(i: int, horarios: seq<string>, acumulados: seq<Option<string>>,
                                               startingHour: int, conv: Conv, n: nat)
    requires n <= |horarios|
    ensures forall j :: 0 <= j < n && j < |acumulados| && Kept(i, j, HourOf(horarios[j], conv), startingHour, |horarios|)
              ==> j in KeptColumns(i, horarios, acumulados, startingHour, conv, n)
  {
    if n > 0 {
      KeptColumnsComplete(i, horarios, acumulados, startingHour, conv, n - 1);
    }
  }

  /** A row succeeds exactly when every kept hour has a timestamp. */
  lemma {:induction false} RowSucceeds(i: int, stamp: int -> Result<string, Error>, horarios: seq<string>,
                    acumulados: seq<Option<string>>, startingHour: int, conv: Conv, n: nat)
    requires n <= |horarios|
    ensures Row(i, stamp, horarios, acumulados, startingHour, conv, n).Success?
        <==> StampsSucceed(stamp, horarios, conv, KeptColumns(i, horarios, acumulados, startingHour, conv, n))
  {
    if StampsSucceed(stamp, horarios, conv, KeptColumns(i, horarios, acumulados, startingHour, conv, n)) {
      RowSucceedsIf(i, stamp, horarios, acumulados, startingHour, conv, n);
    } else {
      RowFailsIf(i, stamp, horarios, acumulados, startingHour, conv, n);
    }
  }

  lemma {:induction false} RowSucceedsIf(i: int, stamp: int -> Result<string, Error>, horarios: seq<string>,
                                         acumulados: seq<Option<string>>, startingHour: int, conv: Conv, n: nat)
    requires n <= |horarios|
    requires StampsSucceed(stamp, horarios, conv, KeptColumns(i, horarios, acumulados, startingHour, conv, n))
    ensures Row(i, stamp, horarios, acumulados, startingHour, conv, n).Success?
  {
    if n > 0 {
      var was := KeptColumns(i, horarios, acumulados, startingHour, conv, n - 1);
      var cols := KeptColumns(i, horarios, acumulados, startingHour, conv, n);
      if n - 1 < |acumulados| && Kept(i, n - 1, HourOf(horarios[n - 1], conv), startingHour, |horarios|) {
        assert cols == was + [n - 1];
        assert cols[|was|] == n - 1;
        forall k | 0 <= k < |was| && was[k] < |horarios|
          ensures stamp(HourOf(horarios[was[k]], conv)).Success?
        {
          assert cols[k] == was[k];
        }
      }
      RowSucceedsIf(i, stamp, horarios, acumulados, startingHour, conv, n - 1);
    }
  }

  lemma {:induction false} RowFailsIf(i: int, stamp: int -> Result<string, Error>, horarios: seq<string>,
                                      acumulados: seq<Option<string>>, startingHour: int, conv: Conv, n: nat)
    requires n <= |horarios|
    requires !StampsSucceed(stamp, horarios, conv, KeptColumns(i, horarios, acumulados, startingHour, conv, n))
    ensures Row(i, stamp, horarios, acumulados, startingHour, conv, n).Failure?
  {
    var cols := KeptColumns(i, horarios, acumulados, startingHour, conv, n);
    var k :| 0 <= k < |cols| && cols[k] < |horarios| && stamp(HourOf(horarios[cols[k]], conv)).Failure?;
    RowFailsAt(i, stamp, horarios, acumulados, startingHour, conv, n, k);
  }

  /** The row fails once the k-th kept column's hour has no timestamp. */
  lemma {:induction false} RowFailsAt(i: int, stamp: int -> Result<string, Error>, horarios: seq<string>,
                                      acumulados: seq<Option<string>>, startingHour: int, conv: Conv, n: nat, k: nat)
    requires n <= |horarios|
    requires var cols := KeptColumns(i, horarios, acumulados, startingHour, conv, n);
      k < |cols| && cols[k] < |horarios| && stamp(HourOf(horarios[cols[k]], conv)).Failure?
    ensures Row(i, stamp, horarios, acumulados, startingHour, conv, n).Failure?
    decreases n
  {
    var cols := KeptColumns(i, horarios, acumulados, startingHour, conv, n);
    var was := KeptColumns(i, horarios, acumulados, startingHour, conv, n - 1);
    var kept := n - 1 < |acumulados| && Kept(i, n - 1, HourOf(horarios[n - 1], conv), startingHour, |horarios|);
    assert cols == if kept then was + [n - 1] else was;
    if k < |was| {
      assert cols[k] == was[k];
      RowFailsAt(i, stamp, horarios, acumulados, startingHour, conv, n - 1, k);
      RowFailureStays(i, stamp, horarios, acumulados, startingHour, conv, n - 1, n);
    } else {
      assert kept && cols[k] == n - 1;
      RowFailsAtLast(i, stamp, horarios, acumulados, startingHour, conv, n);
    }
  }

  /** A kept column whose hour has no timestamp fails the row, if it had not failed already. */
  lemma {:induction false} RowFailsAtLast(i: int, stamp: int -> Result<string, Error>, horarios: seq<string>,
                                          acumulados: seq<Option<string>>, startingHour: int, conv: Conv, n: nat)
    requires 0 < n <= |horarios| && n - 1 < |acumulados|
    requires Kept(i, n - 1, HourOf(horarios[n - 1], conv), startingHour, |horarios|)
    requires stamp(HourOf(horarios[n - 1], conv)).Failure?
    ensures Row(i, stamp, horarios, acumulados, startingHour, conv, n).Failure?
  {
  }

  /** The rain of the listed columns, 0 for a cell without a number. */
  function KeptRain(acumulados: seq<Option<string>>, conv: Conv, cols: seq<nat>): real
  {
    if cols == [] then 0.0
    else
      var j := cols[|cols| - 1];
      KeptRain(acumulados, conv, cols[..|cols| - 1]) + (if j < |acumulados| then RainOf(acumulados[j], conv).0 else 0.0)
  }

  /** A row that succeeds holds one reading per kept column. */
  lemma {:induction false} RowReadings(i: int, stamp: int -> Result<string, Error>, horarios: seq<string>,
                                       acumulados: seq<Option<string>>, startingHour: int, conv: Conv, n: nat)
    requires n <= |horarios|
    requires Row(i, stamp, horarios, acumulados, startingHour, conv, n).Success?
    ensures ReadingsOf(Row(i, stamp, horarios, acumulados, startingHour, conv, n).value.registros, stamp, horarios,
                       acumulados, conv, KeptColumns(i, horarios, acumulados, startingHour, conv, n))
  {
    if n > 0 && Row(i, stamp, horarios, acumulados, startingHour, conv, n - 1).Success? {
      RowReadings(i, stamp, horarios, acumulados, startingHour, conv, n - 1);
    }
  }

  /** The total of a row that succeeds is the rain of its kept columns. */
  lemma {:induction false} RowTotal(i: int, stamp: int -> Result<string, Error>, horarios: seq<string>,
                                    acumulados: seq<Option<string>>, startingHour: int, conv: Conv, n: nat)
    requires n <= |horarios|
    requires Row(i, stamp, horarios, acumulados, startingHour, conv, n).Success?
    ensures Row(i, stamp, horarios, acumulados, startingHour, conv, n).value.total
         == KeptRain(acumulados, conv, KeptColumns(i, horarios, acumulados, startingHour, conv, n))
  {
    if n == 0 {
      assert KeptColumns(i, horarios, acumulados, startingHour, conv, n) == [];
    } else if Row(i, stamp, horarios, acumulados, startingHour, conv, n - 1).Success? {
      RowTotal(i, stamp, horarios, acumulados, startingHour, conv, n - 1);
      RowTotalStep(i, stamp, horarios, acumulados, startingHour, conv, n);
    }
  }

  /** One column of RowTotal: the kept column's rainfall is added to both sides. */
  lemma {:induction false} RowTotalStep(i: int, stamp: int -> Result<string, Error>, horarios: seq<string>,
                     acumulados: seq<Option<string>>, startingHour: int, conv: Conv, n: nat)
    requires 0 < n <= |horarios|
    requires Row(i, stamp, horarios, acumulados, startingHour, conv, n).Success?
    requires Row(i, stamp, horarios, acumulados, startingHour, conv, n - 1).Success?
    requires Row(i, stamp, horarios, acumulados, startingHour, conv, n - 1).value.total
          == KeptRain(acumulados, conv, KeptColumns(i, horarios, acumulados, startingHour, conv, n - 1))
    ensures Row(i, stamp, horarios, acumulados, startingHour, conv, n).value.total
         == KeptRain(acumulados, conv, KeptColumns(i, horarios, acumulados, startingHour, conv, n))
  {
    var j := n - 1;
    var was := KeptColumns(i, horarios, acumulados, startingHour, conv, j);
    if j < |acumulados| && Kept(i, j, HourOf(horarios[j], conv), startingHour, |horarios|) {
      assert KeptColumns(i, horarios, acumulados, startingHour, conv, n) == was + [j];
      KeptRainSnoc(acumulados, conv, was, j);
    }
  }

  /** One more kept column adds its rainfall. */
  lemma {:induction false} KeptRainSnoc(acumulados: seq<Option<string>>, conv: Conv, cols: seq<nat>, j: nat)
    requires j < |acumulados|
    ensures KeptRain(acumulados, conv, cols + [j]) == KeptRain(acumulados, conv, cols) + RainOf(acumulados[j], conv).0
  {
    assert (cols + [j])[..|cols|] == cols;
  }

  /** The indices among the first m where the day step does not skip. */
  function Present(day: nat -> Option<Result<DayInfo, Error>>, m: nat): (idx: seq<nat>)
    ensures forall k :: 0 <= k < |idx| ==> idx[k] < m && day(idx[k]).Some?
  {
    if m == 0 then [] else if day(m - 1).Some? then Present(day, m - 1) + [m - 1] else Present(day, m - 1)
  }

  /** Every listed date that is not skipped yields a document. */
  predicate NoneRaise(day: nat -> Option<Result<DayInfo, Error>>, idx: seq<nat>)
  {
    forall k :: 0 <= k < |idx| && day(idx[k]).Some? ==> day(idx[k]).value.Success?
  }

  /** The documents of the listed dates, in order. */
  predicate DocumentsOf(docs: seq<DayInfo>, day: nat -> Option<Result<DayInfo, Error>>, idx: seq<nat>)
  {
    |docs| == |idx| && forall k :: 0 <= k < |idx| ==> day(idx[k]) == Some(Success(docs[k]))
  }

  /** The dates that are not skipped, in increasing order. */
  lemma {:induction false} PresentExact(day: nat -> Option<Result<DayInfo, Error>>, m: nat)
    ensures Increasing(Present(day, m))
    ensures forall i: nat :: i < m && day(i).Some? ==> i in Present(day, m)
  {
    if m > 0 {
      PresentExact(day, m - 1);
    }
  }

  /** The outer loop fails exactly when a date that is not skipped raises. */
  lemma {:induction false} DaysSucceed(day: nat -> Option<Result<DayInfo, Error>>, m: nat)
    ensures Days(day, m).Success? <==> NoneRaise(day, Present(day, m))
  {
    if m > 0 {
      DaysSucceed(day, m - 1);
      var was, idx := Present(day, m - 1), Present(day, m);
      if day(m - 1).Some? {
        assert idx == was + [m - 1];
        if Days(day, m - 1).Failure? {
          var k :| 0 <= k < |was| && day(was[k]).Some? && day(was[k]).value.Failure?;
          assert idx[k] == was[k];
        } else if day(m - 1).value.Failure? {
          assert idx[|was|] == m - 1;
        } else {
          forall k | 0 <= k < |idx| && day(idx[k]).Some?
            ensures day(idx[k]).value.Success?
          {
            if k < |was| {
              assert idx[k] == was[k];
            }
          }
        }
      }
    }
  }

  /** When it succeeds, the outer loop holds the documents of the dates that are not skipped, in order. */
  lemma {:induction false} DaysDocuments(day: nat -> Option<Result<DayInfo, Error>>, m: nat)
    requires Days(day, m).Success?
    ensures DocumentsOf(Days(day, m).value, day, Present(day, m))
  {
    if m > 0 && Days(day, m - 1).Success? {
      DaysDocuments(day, m - 1);
    }
  }

  /**
   * One date: skipped when it does not parse or has no acumulados row; a
   * null row raises once there is a column; else it raises with its row,
   * or gives a document for the station, dated by the parsed date, whose
   * readings are the row's sorted by timestamp and whose chuvaAcumulada is
   * the row's total, or 0 if not positive.
   */
  lemma {:induction false} DayOutcome(p: Payload, stationId: string, cod: Option<string>, startingHour: int, conv: Conv, i: nat)
    requires p.Dict? && i < |p.datas|
    ensures DayResult(p, stationId, cod, startingHour, conv, i).None? <==> ParseDmy(p.datas[i]).None? || i >= |p.acumulados|
    ensures DayResult(p, stationId, cod, startingHour, conv, i).Some? && p.acumulados[i].None? && p.horarios != [] ==>
      DayResult(p, stationId, cod, startingHour, conv, i).value == Failure(RowWithoutLen)
    ensures DayResult(p, stationId, cod, startingHour, conv, i).Some? && p.acumulados[i].Some? ==>
      var d := ParseDmy(p.datas[i]).value;
      var row := Row(i, StampOf(d), p.horarios, p.acumulados[i].value, startingHour, conv, |p.horarios|);
      var r := DayResult(p, stationId, cod, startingHour, conv, i).value;
      (r.Success? <==> row.Success?)
      && (r.Failure? ==> r.error == row.error)
      && (r.Success? ==>
            r.value.idestacao == stationId && r.value.codigoestacao == cod && r.value.data == IsoDate(d)
            && r.value.chuvaAcumulada == Some(if row.value.total > 0.0 then row.value.total else 0.0)
            && SortedBy(r.value.dados, TimeOf, LexLe) && multiset(r.value.dados) == multiset(row.value.registros))
  {
    var d := ParseDmy(p.datas[i]);
    if d.Some? && i < |p.acumulados| && p.acumulados[i].Some? {
      var row := Row(i, StampOf(d.value), p.horarios, p.acumulados[i].value, startingHour, conv, |p.horarios|);
      if row.Success? {
        LexOrder();
        SortBySorted(row.value.registros, TimeOf, LexLe);
      }
    }
  }

  /**
   * process_cemaden_data returns no documents for a payload that is not a
   * dict; a station object without `.get` raises AttributeError whatever
   * the lists hold; a payload that lacks a list gives no documents;
   * otherwise it fails exactly when a date that is not skipped raises, and
   * returns the documents of those dates in order.
   */
  lemma {:induction false} ProcessCemadenDays(p: Payload, stationId: string, conv: Conv)
    ensures p.NotDict? ==> ProcessCemaden(p, stationId, conv) == Success([])
    ensures p.Dict? && p.estacao.EstacaoNotDict? ==> ProcessCemaden(p, stationId, conv) == Failure(EstacaoWithoutGet)
    ensures p.Dict? && p.estacao.EstacaoDict? && !Complete(p) ==> ProcessCemaden(p, stationId, conv) == Success([])
    ensures Processable(p) ==>
      (ProcessCemaden(p, stationId, conv).Success?
       <==> NoneRaise(ProcessStep(p, stationId, conv), Present(ProcessStep(p, stationId, conv), |p.datas|)))
    ensures Processable(p) && ProcessCemaden(p, stationId, conv).Success? ==>
      DocumentsOf(ProcessCemaden(p, stationId, conv).value, ProcessStep(p, stationId, conv),
                  Present(ProcessStep(p, stationId, conv), |p.datas|))
  {
    if Processable(p) {
      DaysSucceed(ProcessStep(p, stationId, conv), |p.datas|);
      if ProcessCemaden(p, stationId, conv).Success? {
        DaysDocuments(ProcessStep(p, stationId, conv), |p.datas|);
      }
    }
  }
}
