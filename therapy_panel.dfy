/** components/therapy-personalization-panel.tsx: the settings form of the
    chat. Every change builds a new settings record by spreading the old one
    and hands it to the parent; nothing is updated in place. Safe words and
    visual anchors are lists kept free of blanks and duplicates by the add
    handlers, and cut back by filtering. */
module TherapyPanel {
  import opened TextMatch

  datatype EmpathyLevel = Soft | Balanced | Clinical
  datatype SarcasmFilter = NoFilter | ModerateFilter | StrictFilter
  datatype ToneStyle = Warm | Professional | Blunt
  datatype CopingMethod = Cbt | Dbt | Existential | Somatic

  datatype TherapySettings = TherapySettings(
    empathyLevel: EmpathyLevel,
    sarcasmFilter: SarcasmFilter,
    toneStyle: ToneStyle,
    copingMethod: CopingMethod,
    crisisThreshold: int,
    safeWords: seq<string>,
    emergencyContact: string,
    visualAnchors: seq<string>)

  /** A key of the settings together with a value of that key's type. */
  datatype Setting =
    | SetEmpathyLevel(empathy: EmpathyLevel)
    | SetSarcasmFilter(sarcasm: SarcasmFilter)
    | SetToneStyle(tone: ToneStyle)
    | SetCopingMethod(coping: CopingMethod)
    | SetCrisisThreshold(threshold: int)
    | SetSafeWords(words: seq<string>)
    | SetEmergencyContact(contact: string)
    | SetVisualAnchors(anchors: seq<string>)

  /** Two settings name the same key. */
  predicate SameKey(u: Setting, v: Setting) {
    match u
    case SetEmpathyLevel(_) => v.SetEmpathyLevel?
    case SetSarcasmFilter(_) => v.SetSarcasmFilter?
    case SetToneStyle(_) => v.SetToneStyle?
    case SetCopingMethod(_) => v.SetCopingMethod?
    case SetCrisisThreshold(_) => v.SetCrisisThreshold?
    case SetSafeWords(_) => v.SetSafeWords?
    case SetEmergencyContact(_) => v.SetEmergencyContact?
    case SetVisualAnchors(_) => v.SetVisualAnchors?
  }

  /** The value the settings hold under the key of `u`, as a setting. */
  function Get(s: TherapySettings, u: Setting): (v: Setting)
    ensures SameKey(u, v) && SameKey(v, u)
  {
    match u
    case SetEmpathyLevel(_) => SetEmpathyLevel(s.empathyLevel)
    case SetSarcasmFilter(_) => SetSarcasmFilter(s.sarcasmFilter)
    case SetToneStyle(_) => SetToneStyle(s.toneStyle)
    case SetCopingMethod(_) => SetCopingMethod(s.copingMethod)
    case SetCrisisThreshold(_) => SetCrisisThreshold(s.crisisThreshold)
    case SetSafeWords(_) => SetSafeWords(s.safeWords)
    case SetEmergencyContact(_) => SetEmergencyContact(s.emergencyContact)
    case SetVisualAnchors(_) => SetVisualAnchors(s.visualAnchors)
  }

  /** updateSetting: `{ ...settings, [key]: value }`. */
  function UpdateSetting(s: TherapySettings, u: Setting): (r: TherapySettings)
    ensures Get(r, u) == u
    ensures forall v :: !SameKey(u, v) ==> Get(r, v) == Get(s, v)
  {
    match u
    case SetEmpathyLevel(x) => s.(empathyLevel := x)
    case SetSarcasmFilter(x) => s.(sarcasmFilter := x)
    case SetToneStyle(x) => s.(toneStyle := x)
    case SetCopingMethod(x) => s.(copingMethod := x)
    case SetCrisisThreshold(x) => s.(crisisThreshold := x)
    case SetSafeWords(x) => s.(safeWords := x)
    case SetEmergencyContact(x) => s.(emergencyContact := x)
    case SetVisualAnchors(x) => s.(visualAnchors := x)
  }

  /** Settings are determined by what they hold under every key. */
  lemma {:induction false} SettingsByKeys(s: TherapySettings, t: TherapySettings)
    requires forall v :: Get(s, v) == Get(t, v)
    ensures s == t
  {
    assert Get(s, SetEmpathyLevel(Soft)) == Get(t, SetEmpathyLevel(Soft));
    assert Get(s, SetSarcasmFilter(NoFilter)) == Get(t, SetSarcasmFilter(NoFilter));
    assert Get(s, SetToneStyle(Warm)) == Get(t, SetToneStyle(Warm));
    assert Get(s, SetCopingMethod(Cbt)) == Get(t, SetCopingMethod(Cbt));
    assert Get(s, SetCrisisThreshold(0)) == Get(t, SetCrisisThreshold(0));
    assert Get(s, SetSafeWords([])) == Get(t, SetSafeWords([]));
    assert Get(s, SetEmergencyContact("")) == Get(t, SetEmergencyContact(""));
    assert Get(s, SetVisualAnchors([])) == Get(t, SetVisualAnchors([]));
  }

  /** Writing back what a key already holds changes nothing; a second write
      to the same key replaces the first; writes to different keys commute. */
  lemma UpdateLaws(s: TherapySettings, u: Setting, v: Setting)
    ensures UpdateSetting(s, Get(s, u)) == s
    ensures SameKey(u, v) ==> UpdateSetting(UpdateSetting(s, u), v) == UpdateSetting(s, v)
    ensures !SameKey(u, v) ==>
      UpdateSetting(UpdateSetting(s, u), v) == UpdateSetting(UpdateSetting(s, v), u)
  {
    var back := UpdateSetting(s, Get(s, u));
    forall w ensures Get(back, w) == Get(s, w) {
      if SameKey(u, w) {
        assert SameKey(Get(s, u), w);
      }
    }
    SettingsByKeys(back, s);
    var uv, v1 := UpdateSetting(UpdateSetting(s, u), v), UpdateSetting(s, v);
    var vu := UpdateSetting(UpdateSetting(s, v), u);
    if SameKey(u, v) {
      forall w ensures Get(uv, w) == Get(v1, w) {
        if SameKey(v, w) {
          assert Get(uv, w) == v;
        }
      }
      SettingsByKeys(uv, v1);
    } else {
      forall w ensures Get(uv, w) == Get(vu, w) {
        if SameKey(u, w) {
          assert !SameKey(v, w);
        }
      }
      SettingsByKeys(uv, vu);
    }
  }

  // ------------------------------------------------- word lists

  /** No entry occurs twice. */
  predicate NoDuplicates(ws: seq<string>) {
    forall i, j :: 0 <= i < j < |ws| ==> ws[i] != ws[j]
  }

  /** The add rule shared by safe words and anchors: `Some` of the list with
      the trimmed word appended when that is non-empty and absent, `None`
      (no change is handed on) otherwise. */
  function AddWord(ws: seq<string>, word: string): (r: Option<seq<string>>)
    ensures r.Some? <==> Trim(word) != "" && Trim(word) !in ws
    ensures r.Some? ==> |r.value| == |ws| + 1 && r.value[..|ws|] == ws
    ensures r.Some? ==> r.value[|ws|] == Trim(word)
  {
    var t := Trim(word);
    if t != "" && t !in ws then Some(ws + [t]) else None
  }

  /** The list after an add: the new one, or the old one when nothing was
      handed on. */
  function AfterAdd(ws: seq<string>, word: string): seq<string> {
    var r := AddWord(ws, word);
    if r.Some? then r.value else ws
  }

  /** An add keeps a duplicate-free list duplicate-free, leaves the trimmed
      word in the list whenever it is non-empty, and a second add of the
      same word changes nothing. */
  lemma AddWordLaws(ws: seq<string>, word: string)
    requires NoDuplicates(ws)
    ensures NoDuplicates(AfterAdd(ws, word))
    ensures Trim(word) != "" ==> Trim(word) in AfterAdd(ws, word)
    ensures AddWord(AfterAdd(ws, word), word) == None
    ensures forall x :: x in ws ==> x in AfterAdd(ws, word)
  {
    var r := AfterAdd(ws, word);
    if AddWord(ws, word).Some? {
      assert r == ws + [Trim(word)];
      assert r[|ws|] == Trim(word);
    }
  }

  /** The remove rule: `filter((w) => w !== word)`. */
  function RemoveWord(ws: seq<string>, word: string): (r: seq<string>)
    ensures forall x :: x in r <==> x in ws && x != word
    ensures |r| <= |ws|
  {
    if ws == [] then []
    else
      var n := |ws| - 1;
      RemoveWord(ws[..n], word) + (if ws[n] != word then [ws[n]] else [])
  }

  /** Removing distributes over concatenation: the rest keep their order. */
  lemma {:induction false} RemoveWordAppend(xs: seq<string>, ys: seq<string>, word: string)
    ensures RemoveWord(xs + ys, word) == RemoveWord(xs, word) + RemoveWord(ys, word)
    decreases |ys|
  {
    if ys == [] {
      assert xs + ys == xs;
    } else {
      var n, zs := |ys| - 1, xs + ys;
      assert zs[..|zs| - 1] == xs + ys[..n];
      assert zs[|zs| - 1] == ys[n];
      RemoveWordAppend(xs, ys[..n], word);
    }
  }

  /** A list without the word is left as it is. */
  lemma {:induction false} RemoveAbsent(ws: seq<string>, word: string)
    requires word !in ws
    ensures RemoveWord(ws, word) == ws
  {
    if ws != [] {
      var n := |ws| - 1;
      assert ws[..n] + [ws[n]] == ws;
      assert ws[n] in ws;
      RemoveAbsent(ws[..n], word);
    }
  }

  /** Removing keeps a duplicate-free list duplicate-free, and taking out a
      word that was just added gives back the list before the add. */
  lemma RemoveWordLaws(ws: seq<string>, word: string)
    requires NoDuplicates(ws)
    ensures NoDuplicates(RemoveWord(ws, word))
    ensures AddWord(ws, word).Some? ==> RemoveWord(AfterAdd(ws, word), Trim(word)) == ws
  {
    RemoveKeepsNoDuplicates(ws, word);
    var t := Trim(word);
    if AddWord(ws, word).Some? {
      assert AfterAdd(ws, word) == ws + [t];
      RemoveWordAppend(ws, [t], t);
      RemoveAbsent(ws, t);
      assert RemoveWord([t], t) == RemoveWord([], t) + [];
    }
  }

  lemma {:induction false} RemoveKeepsNoDuplicates(ws: seq<string>, word: string)
    requires NoDuplicates(ws)
    ensures NoDuplicates(RemoveWord(ws, word))
  {
    if ws != [] {
      var n := |ws| - 1;
      RemoveKeepsNoDuplicates(ws[..n], word);
      var init := RemoveWord(ws[..n], word);
      if ws[n] != word {
        assert ws[n] !in ws[..n];
        assert ws[n] !in init;
      }
    }
  }

  // ------------------------------------------------- handlers

  /** addSafeWord: the new settings handed to the parent, or `None` when the
      word is blank or already listed. */
  function AddSafeWord(s: TherapySettings, word: string): (r: Option<TherapySettings>)
    ensures r.None? <==> AddWord(s.safeWords, word).None?
    ensures r.Some? ==> r.value == UpdateSetting(s, SetSafeWords(AddWord(s.safeWords, word).value))
  {
    var ws := AddWord(s.safeWords, word);
    if ws.Some? then Some(UpdateSetting(s, SetSafeWords(ws.value))) else None
  }

  /** removeSafeWord: always hands on the settings with the word filtered out. */
  function RemoveSafeWord(s: TherapySettings, word: string): (r: TherapySettings)
    ensures r == UpdateSetting(s, SetSafeWords(RemoveWord(s.safeWords, word)))
    ensures word !in r.safeWords
  {
    UpdateSetting(s, SetSafeWords(RemoveWord(s.safeWords, word)))
  }

  /** addVisualAnchor: as addSafeWord, on the anchors. */
  function AddVisualAnchor(s: TherapySettings, anchor: string): (r: Option<TherapySettings>)
    ensures r.None? <==> AddWord(s.visualAnchors, anchor).None?
    ensures r.Some? ==> r.value == UpdateSetting(s, SetVisualAnchors(AddWord(s.visualAnchors, anchor).value))
  {
    var ws := AddWord(s.visualAnchors, anchor);
    if ws.Some? then Some(UpdateSetting(s, SetVisualAnchors(ws.value))) else None
  }

  /** removeVisualAnchor: as removeSafeWord, on the anchors. */
  function RemoveVisualAnchor(s: TherapySettings, anchor: string): (r: TherapySettings)
    ensures r == UpdateSetting(s, SetVisualAnchors(RemoveWord(s.visualAnchors, anchor)))
    ensures anchor !in r.visualAnchors
  {
    UpdateSetting(s, SetVisualAnchors(RemoveWord(s.visualAnchors, anchor)))
  }

  /** Both lists are free of duplicates. */
  predicate ListsValid(s: TherapySettings) {
    NoDuplicates(s.safeWords) && NoDuplicates(s.visualAnchors)
  }

  /** The four handlers keep both lists duplicate-free, touch only their own
      list, and an added safe word or anchor removed again gives back the
      settings from before the add. */
  lemma HandlersKeepListsValid(s: TherapySettings, word: string)
    requires ListsValid(s)
    ensures AddSafeWord(s, word).Some? ==>
      (&& ListsValid(AddSafeWord(s, word).value)
       && AddSafeWord(s, word).value.visualAnchors == s.visualAnchors
       && RemoveSafeWord(AddSafeWord(s, word).value, Trim(word)) == s)
    ensures AddVisualAnchor(s, word).Some? ==>
      (&& ListsValid(AddVisualAnchor(s, word).value)
       && AddVisualAnchor(s, word).value.safeWords == s.safeWords
       && RemoveVisualAnchor(AddVisualAnchor(s, word).value, Trim(word)) == s)
    ensures ListsValid(RemoveSafeWord(s, word)) && RemoveSafeWord(s, word).visualAnchors == s.visualAnchors
    ensures ListsValid(RemoveVisualAnchor(s, word)) && RemoveVisualAnchor(s, word).safeWords == s.safeWords
  {
    AddWordLaws(s.safeWords, word);
    RemoveWordLaws(s.safeWords, word);
    RemoveWordLaws(s.safeWords, Trim(word));
    AddWordLaws(s.visualAnchors, word);
    RemoveWordLaws(s.visualAnchors, word);
    if AddSafeWord(s, word).Some? {
      var t := AddSafeWord(s, word).value;
      assert t == s.(safeWords := AfterAdd(s.safeWords, word));
    }
    if AddVisualAnchor(s, word).Some? {
      var t := AddVisualAnchor(s, word).value;
      assert t == s.(visualAnchors := AfterAdd(s.visualAnchors, word));
    }
  }
}
