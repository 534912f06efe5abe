/** The access guard (`config_property.py`): a per-field descriptor whose
    reads fail until the instance is loaded and whose writes go to a private
    slot `__<name>`. */
module ConfigProperties {
  import opened Wrappers
  import opened Values
  import opened Errors

  /** The instance a descriptor is read on: its `_loaded` attribute (`None`
      when the attribute does not exist) and its `__dict__`. */
  datatype Owner = Owner(loaded: Option<bool>, slots: map<string, Value>)
  {
    /** `getattr(obj, "_loaded", False)`. */
    predicate IsLoaded()
    {
      loaded == Some(true)
    }
  }

  /** What a descriptor read gives: the descriptor itself (a read through the
      class), a value, or an exception. */
  datatype Lookup = Descriptor(property: ConfigProperty) | Found(value: Value) | Raised(error: Error)

  /** `ConfigProperty(name)`. */
  datatype ConfigProperty = ConfigProperty(name: string)
  {
    /** `private_name`: `__` followed by the field name. */
    function PrivateName(): string
    {
      "__" + name
    }

    /** The message of the `ConfigNotLoadedError` raised for this field. */
    function NotLoadedMessage(): string
    {
      "Configuration must be loaded before accessing '" + name + "'. Call load() first."
    }

    /** `__get__`: the descriptor for a read through the class, an error while
        the instance is not loaded, the private slot otherwise (an
        `AttributeError` when the slot was never written). */
    function Get(obj: Option<Owner>): Lookup
    {
      match obj
      case None => Descriptor(this)
      case Some(o) =>
        if !o.IsLoaded() then Raised(ConfigNotLoaded(NotLoadedMessage()))
        else if PrivateName() in o.slots then Found(o.slots[PrivateName()])
        else Raised(MissingAttribute(PrivateName()))
    }

    /** `__set__`: the instance dictionary after writing the private slot; the
        loaded flag plays no part. */
    function Set(slots: map<string, Value>, value: Value): map<string, Value>
    {
      slots[PrivateName() := value]
    }
  }

  /** A read through the class returns the descriptor itself. */
  lemma ClassReadReturnsDescriptor(p: ConfigProperty)
    ensures p.Get(None) == Descriptor(p) && p.Get(None).property.name == p.name
  {
  }

  /** Reading an instance that is not loaded raises `ConfigNotLoadedError`
      naming the field, whatever the slots hold; a missing `_loaded`
      attribute counts as not loaded. */
  lemma NotLoadedReadRaises(p: ConfigProperty, loaded: Option<bool>, slots: map<string, Value>)
    requires loaded != Some(true)
    ensures p.Get(Some(Owner(loaded, slots))) == Raised(ConfigNotLoaded(p.NotLoadedMessage()))
    ensures p.Get(Some(Owner(None, slots))) == p.Get(Some(Owner(Some(false), slots)))
  {
  }

  /** The message for a field named `name`. */
  lemma NotLoadedMessageExample()
    ensures ConfigProperty("name").NotLoadedMessage() ==
      "Configuration must be loaded before accessing 'name'. Call load() first."
  {
  }

  /** A read while loaded returns what the private slot holds. */
  lemma LoadedReadReturnsSlot(p: ConfigProperty, slots: map<string, Value>)
    requires p.PrivateName() in slots
    ensures p.Get(Some(Owner(Some(true), slots))) == Found(slots[p.PrivateName()])
  {
  }

  /** Distinct fields have distinct private slots. */
  lemma {:induction false} PrivateNameInjective(p: ConfigProperty, q: ConfigProperty)
    requires p.PrivateName() == q.PrivateName()
    ensures p == q
  {
    assert p.name == p.PrivateName()[2..];
    assert q.name == q.PrivateName()[2..];
  }

  /** A loaded read after a write returns the value written, whatever the
      loaded state was at the time of the write. */
  lemma GetAfterSet(p: ConfigProperty, slots: map<string, Value>, v: Value)
    ensures p.Get(Some(Owner(Some(true), p.Set(slots, v)))) == Found(v)
  {
  }

  /** Writing one field leaves every read of another field unchanged. */
  lemma SetOtherLeavesGet(p: ConfigProperty, q: ConfigProperty, loaded: Option<bool>, slots: map<string, Value>, v: Value)
    requires p != q
    ensures p.Get(Some(Owner(loaded, q.Set(slots, v)))) == p.Get(Some(Owner(loaded, slots)))
  {
    if p.PrivateName() == q.PrivateName() {
      PrivateNameInjective(p, q);
    }
  }

  /** The last write wins: two writes to one field are one write of the
      second value. */
  lemma SetTwice(p: ConfigProperty, slots: map<string, Value>, v: Value, w: Value)
    ensures p.Set(p.Set(slots, v), w) == p.Set(slots, w)
  {
  }

  /** Publishing a dictionary that holds the private slot makes a loaded read
      return the published value, whatever was there before. */
  lemma ReadAfterPublish(p: ConfigProperty, slots: map<string, Value>, published: map<string, Value>)
    requires p.PrivateName() in published
    ensures p.Get(Some(Owner(Some(true), slots + published))) == Found(published[p.PrivateName()])
  {
  }
}
