/**
 * The statement options bag (`StatementOptions`): the `OPTIONS (...)` or
 * `CREDENTIALS (...)` entries of a statement, keyed by option name. Every
 * `remove_*` call consumes its key, whether or not a value is found or parses.
 * Typed parsing (`FromOptionValue`) is a parameter `string -> Option<T>`.
 */
module Options {
  import opened Wrappers
  import opened Errors

  /** String-valued options parse as themselves. */
  function AsString(raw: string): Option<string> {
    Some(raw)
  }

  /** The typed value of a raw option, or a parse error naming the key. */
  function Parsed<T>(key: string, raw: string, parse: string -> Option<T>): (r: Result<T, PlanError>)
    ensures r.Success? <==> parse(raw).Some?
    ensures r.Success? ==> r.value == parse(raw).value
    ensures r.Failure? ==> r.error == OptionParseError(key, raw)
  {
    match parse(raw)
    case Some(v) => Success(v)
    case None => Failure(OptionParseError(key, raw))
  }

  /** `remove_optional`: the parsed value when the key is present, None when absent. */
  function OptionalValue<T>(m: map<string, string>, key: string, parse: string -> Option<T>): (r: Result<Option<T>, PlanError>)
    ensures key !in m ==> r == Success(None)
    ensures key in m && parse(m[key]).Some? ==> r == Success(Some(parse(m[key]).value))
    ensures key in m && parse(m[key]).None? ==> r == Failure(OptionParseError(key, m[key]))
    ensures r.Success? && r.value.Some? ==> key in m && parse(m[key]) == Some(r.value.value)
  {
    if key in m then
      var v :- Parsed(key, m[key], parse);
      Success(Some(v))
    else
      Success(None)
  }

  /** `remove_required`: as `remove_optional`, with a missing key an error. */
  function RequiredValue<T>(m: map<string, string>, key: string, parse: string -> Option<T>): (r: Result<T, PlanError>)
    ensures key !in m ==> r == Failure(MissingOption(key))
    ensures r.Success? <==> key in m && parse(m[key]).Some?
    ensures r.Success? ==> parse(m[key]) == Some(r.value)
    ensures key in m && parse(m[key]).None? ==> r == Failure(OptionParseError(key, m[key]))
  {
    var v :- OptionalValue(m, key, parse);
    match v
    case Some(x) => Success(x)
    case None => Failure(MissingOption(key))
  }

  /**
   * `remove_required_or`: the option given in the statement wins; when it is
   * absent, the fallback (typically taken from stored credentials) is used;
   * with neither the key is missing.
   */
  function RequiredOrValue<T>(m: map<string, string>, key: string, fallback: Option<T>, parse: string -> Option<T>): (r: Result<T, PlanError>)
    ensures key in m ==> r == RequiredValue(m, key, parse)
    ensures key !in m && fallback.Some? ==> r == Success(fallback.value)
    ensures key !in m && fallback.None? ==> r == Failure(MissingOption(key))
  {
    var v :- OptionalValue(m, key, parse);
    match v.Or(fallback)
    case Some(x) => Success(x)
    case None => Failure(MissingOption(key))
  }

  /** `remove_optional_or`: the option given in the statement, else the fallback. */
  function OptionalOrValue<T>(m: map<string, string>, key: string, fallback: Option<T>, parse: string -> Option<T>): (r: Result<Option<T>, PlanError>)
    ensures key in m ==> r == OptionalValue(m, key, parse)
    ensures key !in m ==> r == Success(fallback)
  {
    var v :- OptionalValue(m, key, parse);
    Success(v.Or(fallback))
  }

  /** A required string option succeeds exactly when the key is present, with its raw value. */
  lemma RequiredStringPresent(m: map<string, string>, key: string)
    ensures RequiredValue(m, key, AsString) == if key in m then Success(m[key]) else Failure(MissingOption(key))
  {
  }

  /** The `_or` variants agree with the plain ones when there is no fallback. */
  lemma NoFallbackAgrees<T>(m: map<string, string>, key: string, parse: string -> Option<T>)
    ensures RequiredOrValue(m, key, None, parse) == RequiredValue(m, key, parse)
    ensures OptionalOrValue(m, key, None, parse) == OptionalValue(m, key, parse)
  {
  }

  /** Once a key has been consumed, asking for it again finds nothing. */
  lemma ConsumedKeyIsGone<T, U>(m: map<string, string>, key: string, parse: string -> Option<T>, parse2: string -> Option<U>)
    ensures RequiredValue(m - {key}, key, parse2) == Failure(MissingOption(key))
    ensures OptionalValue(m - {key}, key, parse2) == Success(None)
  {
  }

  /** The mutable options bag. */
  class StatementOptions {
    var inner: map<string, string>

    constructor (entries: map<string, string>)
      ensures inner == entries
    {
      inner := entries;
    }

    method RemoveOptional<T>(key: string, parse: string -> Option<T>) returns (r: Result<Option<T>, PlanError>)
      modifies this
      ensures inner == old(inner) - {key}
      ensures r == OptionalValue(old(inner), key, parse)
    {
      r := OptionalValue(inner, key, parse);
      inner := inner - {key};
    }

    method RemoveRequired<T>(key: string, parse: string -> Option<T>) returns (r: Result<T, PlanError>)
      modifies this
      ensures inner == old(inner) - {key}
      ensures r == RequiredValue(old(inner), key, parse)
    {
      var v := RemoveOptional(key, parse);
      match v
      case Failure(e) => r := Failure(e);
      case Success(None) => r := Failure(MissingOption(key));
      case Success(Some(x)) => r := Success(x);
    }

    method RemoveRequiredOr<T>(key: string, fallback: Option<T>, parse: string -> Option<T>) returns (r: Result<T, PlanError>)
      modifies this
      ensures inner == old(inner) - {key}
      ensures r == RequiredOrValue(old(inner), key, fallback, parse)
    {
      var v := RemoveOptional(key, parse);
      match v
      case Failure(e) => r := Failure(e);
      case Success(o) =>
        match o.Or(fallback)
        case None => r := Failure(MissingOption(key));
        case Some(x) => r := Success(x);
    }

    method RemoveOptionalOr<T>(key: string, fallback: Option<T>, parse: string -> Option<T>) returns (r: Result<Option<T>, PlanError>)
      modifies this
      ensures inner == old(inner) - {key}
      ensures r == OptionalOrValue(old(inner), key, fallback, parse)
    {
      var v := RemoveOptional(key, parse);
      match v
      case Failure(e) => r := Failure(e);
      case Success(o) => r := Success(o.Or(fallback));
    }
  }
}
