/** The credential store: one storage slot holding a record of four optional
    strings, with load, merge-then-write save, clear, and the validation that
    resolves the keys a run needs. */
module KeyStore {
  import opened Wrappers
  import opened Strings
  import opened SearchTypes

  /** The four fields of the stored record. */
  datatype KeyField = OpenaiApiKey | OpenaiBaseUrl | OpenaiModel | SerperApiKey

  /** A record as it is stored: the fields present and their string values. */
  type ApiKeys = map<KeyField, string>

  /** A record as a caller passes it to `saveKeys`: a field may be absent, present
      with a string, or present with the value `undefined` (`None`). */
  type Partial = map<KeyField, Option<string>>

  /** The storage slot under the fixed key `openresearch.keys.v1`. `Empty` is no
      item (or the empty string); `Corrupt` is an item that cannot be parsed, or a
      `getItem` that throws, both of which `loadKeys` catches; `Stored` is a record
      written by `saveKeys`. */
  datatype Slot = Empty | Corrupt | Stored(keys: ApiKeys)

  const DefaultBaseUrl := "https://api.openai.com/v1"
  const DefaultModel := "gpt-4o-mini"

  /** The categories for which a Serper key is required. */
  const SerperSources := ["search", "images", "videos", "places", "news", "shopping", "scholar", "patents"]

  /** `loadKeys()`: the stored record, or the empty record when there is none or
      it cannot be read. It is total: it never fails. */
  function LoadKeys(slot: Slot): (r: ApiKeys)
    ensures slot.Stored? ==> r == slot.keys
    ensures !slot.Stored? ==> r == map[]
  {
    match slot
    case Stored(keys) => keys
    case _ => map[]
  }

  /** The stored value of a field, `None` when the field is absent. */
  function Get(keys: ApiKeys, f: KeyField): Option<string> {
    if f in keys then Some(keys[f]) else None
  }

  /** `{ ...current, ...partial }`: every field of `partial` overrides, the rest
      of `current` is kept. */
  function Spread(current: ApiKeys, partial: Partial): (next: Partial)
    ensures next.Keys == current.Keys + partial.Keys
    ensures forall f :: f in partial ==> next[f] == partial[f]
    ensures forall f :: f in current && f !in partial ==> next[f] == Some(current[f])
  {
    (map f | f in current :: Some(current[f])) + partial
  }

  /** The record that `JSON.stringify` writes and `JSON.parse` reads back:
      fields whose value is `undefined` are dropped. */
  function Persisted(next: Partial): (keys: ApiKeys)
    ensures forall f :: f in keys <==> f in next && next[f].Some?
    ensures forall f :: f in keys ==> Some(keys[f]) == next[f]
  {
    map f | f in next && next[f].Some? :: next[f].value
  }

  /** The slot after `saveKeys(partial)`. */
  function SavedSlot(slot: Slot, partial: Partial): (r: Slot)
    ensures r.Stored?
    ensures r.keys.Keys == (LoadKeys(slot).Keys - partial.Keys) + (set f | f in partial && partial[f].Some?)
  {
    Stored(Persisted(Spread(LoadKeys(slot), partial)))
  }

  /** After `saveKeys(p)`, loading gives the old record overridden field by field
      by `p`: a field given a string takes it, a field given `undefined` is
      removed, and a field `p` does not mention keeps its old value (or stays
      absent). */
  lemma SaveThenLoad(slot: Slot, partial: Partial, f: KeyField)
    ensures f in partial ==> Get(LoadKeys(SavedSlot(slot, partial)), f) == partial[f]
    ensures f !in partial ==> Get(LoadKeys(SavedSlot(slot, partial)), f) == Get(LoadKeys(slot), f)
  {
  }

  /** Saving the same partial twice stores what saving it once stores. */
  lemma SaveIdempotent(slot: Slot, partial: Partial)
    ensures SavedSlot(SavedSlot(slot, partial), partial) == SavedSlot(slot, partial)
  {
    var once := LoadKeys(SavedSlot(slot, partial));
    var twice := LoadKeys(SavedSlot(SavedSlot(slot, partial), partial));
    forall f ensures Get(twice, f) == Get(once, f) {
      SaveThenLoad(slot, partial, f);
      SaveThenLoad(SavedSlot(slot, partial), partial, f);
    }
    assert forall f :: f in twice <==> f in once by {
      forall f ensures f in twice <==> f in once {
        assert Get(twice, f).Some? <==> Get(once, f).Some?;
      }
    }
    assert once == twice by {
      forall f | f in once ensures once[f] == twice[f] {
        assert Get(twice, f) == Get(once, f);
      }
    }
  }

  /** The mutable storage slot, with the two operations that write it. */
  class Store {
    var slot: Slot

    constructor (initial: Slot)
      ensures slot == initial
    {
      slot := initial;
    }

    /** `saveKeys(partial)`: load, merge, write back. */
    method SaveKeys(partial: Partial)
      modifies this
      ensures slot == SavedSlot(old(slot), partial)
      ensures forall f :: f in partial ==> Get(LoadKeys(slot), f) == partial[f]
      ensures forall f :: f !in partial ==> Get(LoadKeys(slot), f) == Get(LoadKeys(old(slot)), f)
    {
      var current := LoadKeys(slot);
      var next := Spread(current, partial);
      slot := Stored(Persisted(next));
    }

    /** `clearKeys()`: remove the item. */
    method ClearKeys()
      modifies this
      ensures slot == Empty
      ensures LoadKeys(slot) == map[]
    {
      slot := Empty;
    }
  }

  // ---- getRequiredKeysOrThrow

  /** The two errors `getRequiredKeysOrThrow` throws. */
  datatype KeyError = MissingOpenAIKey | MissingSerperKey {
    function Message(): string {
      match this
      case MissingOpenAIKey => "Missing OpenAI API Key. 请在右上角设置里填写 OpenAI API Key。"
      case MissingSerperKey => "Missing Serper API Key. 请在右上角设置里填写 Serper API Key。"
    }
  }

  /** The keys a run uses, defaults applied. */
  datatype RequiredKeys = RequiredKeys(openaiApiKey: string, baseUrl: string, model: string, serperApiKey: Option<string>)

  /** JavaScript truthiness of an optional string: present and non-empty. */
  predicate Truthy(v: Option<string>) {
    v.Some? && v.value != ""
  }

  /** `value?.trim() || fallback`: the trimmed value, or the fallback when the
      value is absent or blank. */
  function TrimmedOr(v: Option<string>, fallback: string): (r: string)
    ensures v.Some? && !AllWhite(v.value) ==> r == Trim(v.value) && r != ""
    ensures v.None? || AllWhite(v.value) ==> r == fallback
  {
    if v.Some? then
      TrimEmptyIffBlank(v.value);
      var t := Trim(v.value);
      if t != "" then t else fallback
    else fallback
  }

  /** `['search', ..., 'patents'].includes(source)`. */
  predicate NeedsSerper(source: string) {
    source in SerperSources
  }

  /** `getRequiredKeysOrThrow(source)` applied to the loaded record. The OpenAI
      key is checked first and fails for every source; the Serper key fails
      exactly for the listed sources; on success both keys are returned as
      stored, and base URL and model carry their trimmed value or default. */
  function ResolveKeys(keys: ApiKeys, source: string): (r: Result<RequiredKeys, KeyError>)
    ensures !Truthy(Get(keys, OpenaiApiKey)) <==> r == Failure(MissingOpenAIKey)
    ensures r == Failure(MissingSerperKey) <==>
      Truthy(Get(keys, OpenaiApiKey)) && !Truthy(Get(keys, SerperApiKey)) && NeedsSerper(source)
    ensures r.Success? ==> Some(r.value.openaiApiKey) == Get(keys, OpenaiApiKey)
    ensures r.Success? ==> r.value.serperApiKey == Get(keys, SerperApiKey)
    ensures r.Success? ==> r.value.baseUrl != "" && r.value.model != ""
    ensures r.Success? && OpenaiBaseUrl in keys && !AllWhite(keys[OpenaiBaseUrl]) ==>
      r.value.baseUrl == Trim(keys[OpenaiBaseUrl])
    ensures r.Success? && (OpenaiBaseUrl !in keys || AllWhite(keys[OpenaiBaseUrl])) ==>
      r.value.baseUrl == DefaultBaseUrl
    ensures r.Success? && OpenaiModel in keys && !AllWhite(keys[OpenaiModel]) ==>
      r.value.model == Trim(keys[OpenaiModel])
    ensures r.Success? && (OpenaiModel !in keys || AllWhite(keys[OpenaiModel])) ==>
      r.value.model == DefaultModel
  {
    var openaiApiKey := Get(keys, OpenaiApiKey);
    var serperApiKey := Get(keys, SerperApiKey);
    var baseUrl := TrimmedOr(Get(keys, OpenaiBaseUrl), DefaultBaseUrl);
    var model := TrimmedOr(Get(keys, OpenaiModel), DefaultModel);
    if !Truthy(openaiApiKey) then Failure(MissingOpenAIKey)
    else if !Truthy(serperApiKey) && NeedsSerper(source) then Failure(MissingSerperKey)
    else Success(RequiredKeys(openaiApiKey.value, baseUrl, model, serperApiKey))
  }

  /** `getRequiredKeysOrThrow(source)` on the slot's contents. */
  function GetRequiredKeysOrThrow(slot: Slot, source: string): (r: Result<RequiredKeys, KeyError>)
    ensures slot.Stored? ==> r == ResolveKeys(slot.keys, source)
    ensures !slot.Stored? ==> r == Failure(MissingOpenAIKey)
  {
    ResolveKeys(LoadKeys(slot), source)
  }

  /** The Serper list is exactly the set of category names. */
  lemma SerperListIsSourceNames(source: string)
    ensures NeedsSerper(source) <==> exists src: SearchSource :: src.Name() == source
  {
    if NeedsSerper(source) {
      var i :| 0 <= i < |SerperSources| && SerperSources[i] == source;
      var src := [Search, Images, Videos, Places, News, Shopping, Scholar, Patents][i];
      assert src.Name() == source;
    }
  }

  /** Every category needs the Serper key, so with the OpenAI key present and the
      Serper key missing every run the user can start fails on the Serper key. */
  lemma SerperAlwaysRequired(slot: Slot, src: SearchSource)
    requires Truthy(Get(LoadKeys(slot), OpenaiApiKey))
    requires !Truthy(Get(LoadKeys(slot), SerperApiKey))
    ensures GetRequiredKeysOrThrow(slot, src.Name()) == Failure(MissingSerperKey)
  {
    assert NeedsSerper(src.Name()) by { SerperListIsSourceNames(src.Name()); }
  }
}
