/**
 * `build_name(parts, concatenation)`: a person's display name from the
 * parts a name form collected. The parts name their scheme under
 * `"_scheme"`; the scheme table (`PERSON_NAME_SCHEMES`) maps each scheme to
 * its concatenation functions. A legacy single-field name under
 * `"_legacy"` is returned as it is.
 *
 * The scheme table lives in the settings module, which is not part of this
 * model; it is the parameter `schemes`. A scheme also holds entries that
 * are not functions (its field list, a sample name); each concatenation
 * function is an arbitrary function of the parts.
 */
module Names {
  import opened Wrappers
  import opened Text

  type Parts = map<string, string>

  /** One entry of a scheme: a function that joins the parts into a name. */
  type Concatenation = Parts -> string

  /** One entry of a scheme: a concatenation function, or data such as `"fields"` or `"sample"`. */
  datatype Entry = Callable(join: Concatenation) | Data

  /** One `PERSON_NAME_SCHEMES` value: its entries by key. */
  type Scheme = map<string, Entry>

  /** The key every scheme is expected to provide. */
  const DefaultConcatenation := "concatenation"

  datatype NameError =
    | InvalidName                       // `TypeError("Invalid name given.")`
    | UnknownScheme(scheme: string)     // `KeyError` from `PERSON_NAME_SCHEMES[...]`
    | MissingConcatenation(key: string) // `KeyError` from `scheme["concatenation"]`
    | NotCallable(key: string)          // `TypeError` from calling a data entry

  /** `not parts`: `None` and the empty dictionary are both falsy. */
  predicate Falsy(parts: Option<Parts>) {
    parts.None? || parts.value == map[]
  }

  /** The concatenation key actually used: the requested one if the scheme has it, else the default. */
  function ChosenKey(scheme: Scheme, concatenation: Option<string>): (k: string)
    ensures k == DefaultConcatenation || (concatenation.Some? && k == concatenation.value && k in scheme)
    ensures concatenation.Some? && concatenation.value != "" && concatenation.value in scheme ==> k == concatenation.value
  {
    if concatenation.None? || concatenation.value == "" || concatenation.value !in scheme then DefaultConcatenation
    else concatenation.value
  }

  /** `build_name(parts, concatenation)`. */
  function BuildName(parts: Option<Parts>, concatenation: Option<string>, schemes: map<string, Scheme>)
    : (r: Result<string, NameError>)
    ensures Falsy(parts) ==> r == Ok("")
    ensures r.Err? <==>
      && !Falsy(parts)
      && "_legacy" !in parts.value
      && ("_scheme" !in parts.value
          || parts.value["_scheme"] !in schemes
          || ChosenKey(schemes[parts.value["_scheme"]], concatenation) !in schemes[parts.value["_scheme"]]
          || schemes[parts.value["_scheme"]][ChosenKey(schemes[parts.value["_scheme"]], concatenation)].Data?)
  {
    if Falsy(parts) then Ok("")
    else
      var p := parts.value;
      if "_legacy" in p then Ok(p["_legacy"])
      else if "_scheme" !in p then Err(InvalidName)
      else if p["_scheme"] !in schemes then Err(UnknownScheme(p["_scheme"]))
      else
        var scheme := schemes[p["_scheme"]];
        var key := ChosenKey(scheme, concatenation);
        if key !in scheme then Err(MissingConcatenation(key))
        else match scheme[key]
          case Callable(join) => Ok(Strip(join(p)))
          case Data => Err(NotCallable(key))
  }

  // ---------------------------------------------------------------------
  // What `build_name` promises

  /** A legacy name is returned verbatim, even when a scheme is named as well. */
  lemma LegacyWins(parts: Parts, concatenation: Option<string>, schemes: map<string, Scheme>)
    requires parts != map[] && "_legacy" in parts
    ensures BuildName(Some(parts), concatenation, schemes) == Ok(parts["_legacy"])
  {
  }

  /** Parts with neither a legacy name nor a scheme are rejected as invalid. */
  lemma NoSchemeIsInvalid(parts: Parts, concatenation: Option<string>, schemes: map<string, Scheme>)
    requires parts != map[] && "_legacy" !in parts && "_scheme" !in parts
    ensures BuildName(Some(parts), concatenation, schemes) == Err(InvalidName)
  {
  }

  /** A scheme name missing from the table is a lookup error naming it. */
  lemma UnknownSchemeFails(parts: Parts, concatenation: Option<string>, schemes: map<string, Scheme>)
    requires parts != map[] && "_legacy" !in parts && "_scheme" in parts && parts["_scheme"] !in schemes
    ensures BuildName(Some(parts), concatenation, schemes) == Err(UnknownScheme(parts["_scheme"]))
  {
  }

  /**
   * The requested concatenation is used when the scheme has that key; when it
   * is missing, empty or unknown to the scheme, `"concatenation"` is used.
   * Either way the result is that function's output, stripped; a key naming
   * data rather than a function is a type error.
   */
  lemma ConcatenationChoice(parts: Parts, concatenation: Option<string>, schemes: map<string, Scheme>)
    requires parts != map[] && "_legacy" !in parts && "_scheme" in parts && parts["_scheme"] in schemes
    ensures var scheme := schemes[parts["_scheme"]];
      && (concatenation.Some? && concatenation.value != "" && concatenation.value in scheme ==>
            BuildName(Some(parts), concatenation, schemes)
              == match scheme[concatenation.value]
                 case Callable(join) => Ok(Strip(join(parts)))
                 case Data => Err(NotCallable(concatenation.value)))
      && (!(concatenation.Some? && concatenation.value != "" && concatenation.value in scheme) ==>
            BuildName(Some(parts), concatenation, schemes)
              == if DefaultConcatenation !in scheme then Err(MissingConcatenation(DefaultConcatenation))
                 else match scheme[DefaultConcatenation]
                   case Callable(join) => Ok(Strip(join(parts)))
                   case Data => Err(NotCallable(DefaultConcatenation)))
  {
  }

  /**
   * A built name never starts or ends with white space, and it is what the
   * concatenation function returned with only white space cut from its ends.
   */
  lemma NameIsStripped(parts: Parts, concatenation: Option<string>, schemes: map<string, Scheme>)
    requires parts != map[] && "_legacy" !in parts
    requires BuildName(Some(parts), concatenation, schemes).Ok?
    ensures var name := BuildName(Some(parts), concatenation, schemes).value;
      var scheme := schemes[parts["_scheme"]];
      var raw := scheme[ChosenKey(scheme, concatenation)].join(parts);
      && (name == [] || (!IsSpace(name[0]) && !IsSpace(name[|name| - 1])))
      && exists k :: StrippedAt(raw, name, k)
  {
    var scheme := schemes[parts["_scheme"]];
    StripSpec(scheme[ChosenKey(scheme, concatenation)].join(parts));
  }
}
