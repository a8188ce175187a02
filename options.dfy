/**
 * The options bag a chat model is configured with: a mutable input map that
 * parameters are put into in place, plain settable fields, a builder that
 * accumulates the same settings, and copies that get their own input map but
 * share the webhook events filter list.
 */
module Options {
  import opened Wrappers
  import opened Predictions

  /** A mutable list of strings (a Java `List<String>`), shared by reference. */
  class StringList {
    var items: seq<string>

    constructor (items: seq<string>)
      ensures this.items == items
    {
      this.items := items;
    }

    method Add(item: string)
      modifies this
      ensures items == old(items) + [item]
    {
      items := items + [item];
    }
  }

  /** `HashMap.put`: `key` now maps to `value`; every other entry is as before. */
  function Put(m: map<string, Value>, key: string, value: Value): (r: map<string, Value>)
    ensures r.Keys == m.Keys + {key}
    ensures key in r && r[key] == value
    ensures forall k :: k in m && k != key ==> r[k] == m[k]
  {
    m[key := value]
  }

  /** `HashMap.putAll`: every key of `p` now maps to its value in `p`; other keys keep theirs. */
  function PutAll(m: map<string, Value>, p: map<string, Value>): (r: map<string, Value>)
    ensures r.Keys == m.Keys + p.Keys
    ensures forall k :: k in p ==> r[k] == p[k]
    ensures forall k :: k in m && k !in p ==> r[k] == m[k]
  {
    m + p
  }

  /** The map after a series of `put`s, in order. */
  function PutEach(m: map<string, Value>, entries: seq<(string, Value)>): map<string, Value>
    decreases |entries|
  {
    if entries == [] then m
    else
      var last := entries[|entries| - 1];
      Put(PutEach(m, entries[..|entries| - 1]), last.0, last.1)
  }

  /** The value of the last `put` of `key` in a series, if there is one. */
  function LastPut(entries: seq<(string, Value)>, key: string): (r: Option<Value>)
    ensures r.Some? <==> exists i :: 0 <= i < |entries| && entries[i].0 == key
    ensures r.Some? ==> exists i :: 0 <= i < |entries| && entries[i] == (key, r.value)
                                    && forall j :: i < j < |entries| ==> entries[j].0 != key
    decreases |entries|
  {
    if entries == [] then None
    else if entries[|entries| - 1].0 == key then Some(entries[|entries| - 1].1)
    else
      var prefix := entries[..|entries| - 1];
      assert forall i :: 0 <= i < |prefix| ==> prefix[i] == entries[i];
      LastPut(prefix, key)
  }

  /** After a series of `put`s a key holds the value of its last `put`; a key never put keeps its entry. */
  lemma {:induction false} PutEachLastWins(m: map<string, Value>, entries: seq<(string, Value)>, key: string)
    ensures key in PutEach(m, entries) <==> key in m || LastPut(entries, key).Some?
    ensures key in PutEach(m, entries) ==>
              PutEach(m, entries)[key] == if LastPut(entries, key).Some? then LastPut(entries, key).value else m[key]
    decreases |entries|
  {
    if entries != [] && entries[|entries| - 1].0 != key {
      PutEachLastWins(m, entries[..|entries| - 1], key);
    }
  }

  /** All the settings an options object or its builder holds. */
  datatype Settings = Settings(
    model: Option<string>,
    version: Option<string>,
    input: map<string, Value>,
    webhook: Option<string>,
    webhookEventsFilter: Option<StringList>,
    preferWait: Option<string>,
    cancelAfter: Option<string>)

  /** The generic chat sampling settings, as the seven getters report them. */
  datatype Sampling = Sampling(
    frequencyPenalty: Option<real>,
    maxTokens: Option<int>,
    presencePenalty: Option<real>,
    stopSequences: Option<seq<string>>,
    temperature: Option<real>,
    topK: Option<int>,
    topP: Option<real>)

  /** The settings of a fresh builder and of a default-constructed options object. */
  const EMPTY_SETTINGS := Settings(None, None, map[], None, None, None, None)

  class ReplicateChatOptions {
    var model: Option<string>
    var version: Option<string>
    var input: map<string, Value>
    var webhook: Option<string>
    var webhookEventsFilter: Option<StringList>
    var preferWait: Option<string>
    var cancelAfter: Option<string>

    function State(): Settings
      reads this
    {
      Settings(model, version, input, webhook, webhookEventsFilter, preferWait, cancelAfter)
    }

    /** The default options: everything unset and an empty input map. */
    constructor ()
      ensures State() == EMPTY_SETTINGS
    {
      model, version, input, webhook := None, None, map[], None;
      webhookEventsFilter, preferWait, cancelAfter := None, None, None;
    }

    /** Options built from a builder: its settings, with a copy of its input map. */
    constructor FromBuilder(b: Builder)
      ensures State() == b.State()
    {
      model, version, input, webhook := b.model, b.version, b.input, b.webhook;
      webhookEventsFilter, preferWait, cancelAfter := b.webhookEventsFilter, b.preferWait, b.cancelAfter;
    }

    /** Puts one parameter into the input map in place and returns this object. */
    method WithParameter(key: string, value: Value) returns (r: ReplicateChatOptions)
      modifies this
      ensures r == this
      ensures State() == old(State()).(input := Put(old(input), key, value))
    {
      input := Put(input, key, value);
      r := this;
    }

    /** Puts every entry of `parameters` into the input map in place and returns this object. */
    method WithParameters(parameters: map<string, Value>) returns (r: ReplicateChatOptions)
      modifies this
      ensures r == this
      ensures State() == old(State()).(input := PutAll(old(input), parameters))
    {
      input := PutAll(input, parameters);
      r := this;
    }

    method SetModel(model: Option<string>)
      modifies this
      ensures State() == old(State()).(model := model)
    {
      this.model := model;
    }

    method SetVersion(version: Option<string>)
      modifies this
      ensures State() == old(State()).(version := version)
    {
      this.version := version;
    }

    method SetWebhook(webhook: Option<string>)
      modifies this
      ensures State() == old(State()).(webhook := webhook)
    {
      this.webhook := webhook;
    }

    method SetWebhookEventsFilter(filter: Option<StringList>)
      modifies this
      ensures State() == old(State()).(webhookEventsFilter := filter)
    {
      this.webhookEventsFilter := filter;
    }

    method SetPreferWait(preferWait: Option<string>)
      modifies this
      ensures State() == old(State()).(preferWait := preferWait)
    {
      this.preferWait := preferWait;
    }

    method SetCancelAfter(cancelAfter: Option<string>)
      modifies this
      ensures State() == old(State()).(cancelAfter := cancelAfter)
    {
      this.cancelAfter := cancelAfter;
    }

    /** The sampling settings a chat caller may ask for; these options support none of them. */
    function SamplingSettings(): (r: Sampling)
      ensures r.frequencyPenalty == None && r.maxTokens == None && r.presencePenalty == None
      ensures r.stopSequences == None && r.temperature == None && r.topK == None && r.topP == None
    {
      Sampling(None, None, None, None, None, None, None)
    }

    /**
     * A new options object with the same settings, built through a builder from
     * a copy of `from`'s input map. The events filter list is the same object.
     */
    static method FromOptions(from: ReplicateChatOptions) returns (r: ReplicateChatOptions)
      ensures fresh(r)
      ensures r.State() == from.State()
      // the sharing property, spelled out: the list is the same object, not a copy
      ensures r.webhookEventsFilter == from.webhookEventsFilter
    {
      var b := new Builder();
      b := b.Model(from.model);
      b := b.Version(from.version);
      b := b.Input(from.input);
      b := b.Webhook(from.webhook);
      b := b.WebhookEventsFilter(from.webhookEventsFilter);
      b := b.PreferWait(from.preferWait);
      b := b.CancelAfter(from.cancelAfter);
      r := b.Build();
    }

    /** A copy, exactly as `FromOptions(this)`. */
    method Copy() returns (c: ReplicateChatOptions)
      ensures fresh(c)
      ensures c.State() == State()
    {
      c := FromOptions(this);
    }
  }

  class Builder {
    var model: Option<string>
    var version: Option<string>
    var input: map<string, Value>
    var webhook: Option<string>
    var webhookEventsFilter: Option<StringList>
    var preferWait: Option<string>
    var cancelAfter: Option<string>

    function State(): Settings
      reads this
    {
      Settings(model, version, input, webhook, webhookEventsFilter, preferWait, cancelAfter)
    }

    constructor ()
      ensures State() == EMPTY_SETTINGS
    {
      model, version, input, webhook := None, None, map[], None;
      webhookEventsFilter, preferWait, cancelAfter := None, None, None;
    }

    method Model(model: Option<string>) returns (r: Builder)
      modifies this
      ensures r == this && State() == old(State()).(model := model)
    {
      this.model := model;
      r := this;
    }

    method Version(version: Option<string>) returns (r: Builder)
      modifies this
      ensures r == this && State() == old(State()).(version := version)
    {
      this.version := version;
      r := this;
    }

    /** Replaces the whole input map (used when copying options). */
    method Input(input: map<string, Value>) returns (r: Builder)
      modifies this
      ensures r == this && State() == old(State()).(input := input)
    {
      this.input := input;
      r := this;
    }

    method WithParameter(key: string, value: Value) returns (r: Builder)
      modifies this
      ensures r == this && State() == old(State()).(input := Put(old(input), key, value))
    {
      input := Put(input, key, value);
      r := this;
    }

    method WithParameters(parameters: map<string, Value>) returns (r: Builder)
      modifies this
      ensures r == this && State() == old(State()).(input := PutAll(old(input), parameters))
    {
      input := PutAll(input, parameters);
      r := this;
    }

    method Webhook(webhook: Option<string>) returns (r: Builder)
      modifies this
      ensures r == this && State() == old(State()).(webhook := webhook)
    {
      this.webhook := webhook;
      r := this;
    }

    method WebhookEventsFilter(filter: Option<StringList>) returns (r: Builder)
      modifies this
      ensures r == this && State() == old(State()).(webhookEventsFilter := filter)
    {
      this.webhookEventsFilter := filter;
      r := this;
    }

    method PreferWait(preferWait: Option<string>) returns (r: Builder)
      modifies this
      ensures r == this && State() == old(State()).(preferWait := preferWait)
    {
      this.preferWait := preferWait;
      r := this;
    }

    method CancelAfter(cancelAfter: Option<string>) returns (r: Builder)
      modifies this
      ensures r == this && State() == old(State()).(cancelAfter := cancelAfter)
    {
      this.cancelAfter := cancelAfter;
      r := this;
    }

    /** A new options object with this builder's settings; the builder itself is untouched. */
    method Build() returns (o: ReplicateChatOptions)
      ensures fresh(o)
      ensures o.State() == State()
    {
      o := new ReplicateChatOptions.FromBuilder(this);
    }
  }

  /**
   * A builder fed one `withParameter` per entry, in order, builds options whose
   * input is the accumulated map (later puts of a key overwrite earlier ones)
   * and whose other settings are unset.
   */
  method BuildWithParameters(entries: seq<(string, Value)>) returns (o: ReplicateChatOptions)
    ensures o.State() == EMPTY_SETTINGS.(input := PutEach(map[], entries))
  {
    var b := new Builder();
    var i := 0;
    while i < |entries|
      invariant 0 <= i <= |entries|
      invariant fresh(b)
      invariant b.State() == EMPTY_SETTINGS.(input := PutEach(map[], entries[..i]))
    {
      assert entries[..i + 1][..i] == entries[..i];
      b := b.WithParameter(entries[i].0, entries[i].1);
      i := i + 1;
    }
    assert entries[..i] == entries;
    o := b.Build();
  }

  /**
   * Changing a copy's input leaves the original's input and settings as they
   * were: the method modifies nothing that existed before it, so the original
   * is unchanged by its frame alone.
   */
  method CopyHasOwnInput(original: ReplicateChatOptions, key: string, value: Value) returns (c: ReplicateChatOptions)
    ensures fresh(c) && c != original
    ensures c.State() == original.State().(input := Put(original.input, key, value))
  {
    c := original.Copy();
    c := c.WithParameter(key, value);
  }

  /** The events filter list is shared: adding to the copy's list is seen through the original. */
  method CopySharesEventsFilter(original: ReplicateChatOptions, event: string) returns (c: ReplicateChatOptions)
    requires original.webhookEventsFilter.Some?
    modifies original.webhookEventsFilter.value
    ensures fresh(c)
    ensures c.webhookEventsFilter == original.webhookEventsFilter
    ensures original.webhookEventsFilter.value.items == old(original.webhookEventsFilter.value.items) + [event]
  {
    c := original.Copy();
    c.webhookEventsFilter.value.Add(event);
  }

  /** Changing a builder after `build()` leaves the built options as they were. */
  method BuiltOptionsAreIndependent(b: Builder, key: string, value: Value) returns (o: ReplicateChatOptions)
    modifies b
    ensures fresh(o)
    ensures o.State() == old(b.State())
    ensures b.State() == old(b.State()).(input := Put(old(b.input), key, value))
  {
    o := b.Build();
    var same := b.WithParameter(key, value);
  }
}
