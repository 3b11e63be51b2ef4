/** The device and hardware type registries and the validation of the
    `devices` / `hardware` sections of the configuration. Both registries run
    the same code (brick/device/__init__.py and brick/hardware/__init__.py), so
    one generic class models both; `kind` is "device" or "hardware".

    A registered class is an abstract token of type `C`; calling it with the
    remaining configuration keys as keyword arguments is the parameter
    `construct`, which yields an instance or the text of the exception the
    constructor raised. */
module Registry {
  import opened Wrappers
  import opened Values

  // ------------------------------------------------------------ the name pattern

  predicate FirstChar(c: char) { 'a' <= c <= 'z' }

  predicate BodyChar(c: char) { 'a' <= c <= 'z' || '0' <= c <= '9' || c == '_' }

  /** A lowercase letter followed by lowercase letters, digits and `_`. */
  ghost predicate PlainName(s: string) {
    |s| > 0 && FirstChar(s[0]) && forall k :: 1 <= k < |s| ==> BodyChar(s[k])
  }

  /** What `re.match('^[a-z][a-z0-9_]*$', s)` accepts: Python's `$` also
      matches just before a final newline, so one trailing `\n` is allowed. */
  ghost predicate NamePattern(s: string) {
    PlainName(s) || (|s| > 1 && s[|s| - 1] == '\n' && PlainName(s[..|s| - 1]))
  }

  /** The matcher after the first character: body characters from `i` on,
      then the end of the text or a final newline. */
  function ScanBody(s: string, i: nat): (ok: bool)
    requires 1 <= i <= |s|
    ensures ok <==> (forall k :: i <= k < |s| ==> BodyChar(s[k]))
                    || (i < |s| && s[|s| - 1] == '\n' && forall k :: i <= k < |s| - 1 ==> BodyChar(s[k]))
    decreases |s| - i
  {
    if i == |s| then true
    else if BodyChar(s[i]) then ScanBody(s, i + 1)
    else s[i] == '\n' && i == |s| - 1
  }

  /** The name check of validate_device / validate_hardware. */
  function NameOk(name: string): (ok: bool)
    ensures ok <==> NamePattern(name)
  {
    var r := |name| > 0 && FirstChar(name[0]) && ScanBody(name, 1);
    assert |name| > 1 && name[|name| - 1] == '\n' ==> forall k :: 1 <= k < |name| - 1 ==> name[..|name| - 1][k] == name[k];
    r
  }

  /** A name with a trailing newline passes the check. */
  lemma TrailingNewlineAccepted()
    ensures NameOk("relay\n")
    ensures !NameOk("Relay") && !NameOk("1relay") && !NameOk("") && !NameOk("re-lay")
  {
    assert !BodyChar('-');
  }

  // ------------------------------------------------------------ one entry

  const NameMessage := "Name must contains lowercase characters, numbers and _ only."
  const TypeRequiredMessage := "type parameter is required."

  function UnknownTypeMessage(t: Value): string {
    "type '" + Str(t) + "' does not exist."
  }

  /** `str()` of the TypeError a list raises when it is looked up in a
      dictionary; the `except Exception` branch turns it into the entry's error. */
  const UnhashableListMessage := "unhashable type: 'list'"

  /** The outcome of validating one configuration entry against the registered
      classes: the checks in source order, then the constructor call with every
      key but `type`. */
  function EntryResult<C, I>(classes: map<string, C>, construct: (C, map<string, Value>) -> Result<I, string>,
                             name: string, config: map<string, Value>): (r: Result<I, string>)
    ensures !NameOk(name) ==> r == Err(NameMessage)
    ensures NameOk(name) && "type" !in config ==> r == Err(TypeRequiredMessage)
    ensures NameOk(name) && "type" in config && config["type"].ListV? ==> r == Err(UnhashableListMessage)
    ensures NameOk(name) && "type" in config && !config["type"].ListV? && !(config["type"].StrV? && config["type"].s in classes)
            ==> r == Err(UnknownTypeMessage(config["type"]))
    ensures NameOk(name) && "type" in config && config["type"].StrV? && config["type"].s in classes
            ==> r == construct(classes[config["type"].s], config - {"type"})
  {
    if !NameOk(name) then Err(NameMessage)
    else if "type" !in config then Err(TypeRequiredMessage)
    else
      var t := config["type"];
      if t.ListV? then Err(UnhashableListMessage)
      else if t.StrV? && t.s in classes then construct(classes[t.s], config - {"type"})
      else Err(UnknownTypeMessage(t))
  }

  /** `name or cls.__name__`: the empty string also falls back to the class name. */
  function TypeName(given: Option<string>, className: string): (t: string)
    ensures given.Some? && given.value != "" ==> t == given.value
    ensures given.None? || given == Some("") ==> t == className
  {
    if given.Some? && given.value != "" then given.value else className
  }

  class TypeRegistry<C> {
    /** `_device_registry` / `_hardware_registry`. */
    var classes: map<string, C>
    const kind: string

    constructor(kind: string)
      ensures this.kind == kind && classes == map[]
    {
      this.kind := kind;
      classes := map[];
    }

    /** `register_device(type)(cls)` / `register_hardware(type)(cls)`: the class
        is returned unchanged, or a KeyError when the type is already taken, in
        which case nothing changes. */
    method Register(given: Option<string>, className: string, cls: C) returns (r: Result<C, string>)
      modifies this`classes
      ensures TypeName(given, className) in old(classes) ==>
                r == Err(kind + "_type " + TypeName(given, className) + " is already present.") && classes == old(classes)
      ensures TypeName(given, className) !in old(classes) ==>
                r == Ok(cls) && classes == old(classes)[TypeName(given, className) := cls]
    {
      var t := TypeName(given, className);
      if t in classes {
        r := Err(kind + "_type " + t + " is already present.");
      } else {
        classes := classes[t := cls];
        r := Ok(cls);
      }
    }

    /** `validate_device(config)` / `validate_hardware(config)`: every entry is
        validated; with no failure all instances come back, otherwise one
        ValidationError whose map holds exactly the failing names. */
    method Validate<I>(config: map<string, map<string, Value>>, construct: (C, map<string, Value>) -> Result<I, string>)
      returns (r: Result<map<string, I>, map<string, string>>)
      ensures r.Ok? <==> forall n :: n in config ==> EntryResult(classes, construct, n, config[n]).Ok?
      ensures r.Ok? ==> r.value.Keys == config.Keys
                        && forall n :: n in r.value ==> Ok(r.value[n]) == EntryResult(classes, construct, n, config[n])
      ensures r.Err? ==> (forall n :: n in r.error <==> n in config && EntryResult(classes, construct, n, config[n]).Err?)
                         && forall n :: n in r.error ==> Err(r.error[n]) == EntryResult(classes, construct, n, config[n])
    {
      var instances: map<string, I> := map[];
      var errors: map<string, string> := map[];
      var pending := config.Keys;
      while pending != {}
        invariant pending <= config.Keys
        invariant forall n :: n in instances <==> n in config && n !in pending && EntryResult(classes, construct, n, config[n]).Ok?
        invariant forall n :: n in errors <==> n in config && n !in pending && EntryResult(classes, construct, n, config[n]).Err?
        invariant forall n :: n in instances ==> Ok(instances[n]) == EntryResult(classes, construct, n, config[n])
        invariant forall n :: n in errors ==> Err(errors[n]) == EntryResult(classes, construct, n, config[n])
        decreases pending
      {
        var n :| n in pending;
        var outcome := EntryResult(classes, construct, n, config[n]);
        if outcome.Ok? {
          instances := instances[n := outcome.value];
        } else {
          errors := errors[n := outcome.error];
        }
        pending := pending - {n};
      }
      if errors != map[] {
        r := Err(errors);
      } else {
        r := Ok(instances);
      }
    }
  }

  /** Every validated configuration only has names that match the pattern. */
  lemma ValidatedNamesMatch<C, I>(classes: map<string, C>, construct: (C, map<string, Value>) -> Result<I, string>,
                                  config: map<string, map<string, Value>>)
    requires forall n :: n in config ==> EntryResult(classes, construct, n, config[n]).Ok?
    ensures forall n :: n in config ==> NamePattern(n) && "type" in config[n]
  {
    forall n | n in config ensures NamePattern(n) && "type" in config[n] {
      var _ := EntryResult(classes, construct, n, config[n]);
    }
  }

  /** The constructor never sees `type`, and sees every other key unchanged. */
  lemma ConstructorArguments<C, I>(classes: map<string, C>, construct: (C, map<string, Value>) -> Result<I, string>,
                                   name: string, config: map<string, Value>)
    requires NameOk(name) && "type" in config && config["type"].StrV? && config["type"].s in classes
    ensures EntryResult(classes, construct, name, config) == construct(classes[config["type"].s], config - {"type"})
    ensures "type" !in config - {"type"}
    ensures forall k :: k in config && k != "type" ==> k in config - {"type"} && (config - {"type"})[k] == config[k]
  {
  }
}
