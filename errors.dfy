/**
 * The error values the core refers to by name (ErrEmailNoSMTP, ErrUnknown, ...).
 * Their texts are defined in a file that is not part of this model, so each is an
 * opaque constant whose text, here, is its identifier: distinct and non-empty, which
 * is all the rest of the model relies on.
 */
module Errors {

  datatype ErrConst =
    | ErrEmptyConfig | ErrNoContainers
    | ErrEmailNoSMTP | ErrEmailNoTo | ErrEmailNoFrom | ErrEmailNoPass | ErrEmailNoPort | ErrEmailNoSubject
    | ErrSlackNoWebHookURL
    | ErrPushoverAPIToken | ErrPushoverUserKey | ErrPushoverAPIURL
    | ErrPushbulletAccessToken | ErrPushbulletTitle
    | ErrUnknown

  /** err.Error() */
  function Text(e: ErrConst): (r: string)
    ensures r != []
  {
    match e
    case ErrEmptyConfig => "ErrEmptyConfig"
    case ErrNoContainers => "ErrNoContainers"
    case ErrEmailNoSMTP => "ErrEmailNoSMTP"
    case ErrEmailNoTo => "ErrEmailNoTo"
    case ErrEmailNoFrom => "ErrEmailNoFrom"
    case ErrEmailNoPass => "ErrEmailNoPass"
    case ErrEmailNoPort => "ErrEmailNoPort"
    case ErrEmailNoSubject => "ErrEmailNoSubject"
    case ErrSlackNoWebHookURL => "ErrSlackNoWebHookURL"
    case ErrPushoverAPIToken => "ErrPushoverAPIToken"
    case ErrPushoverUserKey => "ErrPushoverUserKey"
    case ErrPushoverAPIURL => "ErrPushoverAPIURL"
    case ErrPushbulletAccessToken => "ErrPushbulletAccessToken"
    case ErrPushbulletTitle => "ErrPushbulletTitle"
    case ErrUnknown => "ErrUnknown"
  }

  /** `r` is `order` with some elements left out: the elements of r keep the order of `order`. */
  ghost predicate IsSubseq(r: seq<ErrConst>, order: seq<ErrConst>)
    decreases |order|
  {
    if r == [] then true
    else if order == [] then false
    else (r[0] == order[0] && IsSubseq(r[1..], order[1..])) || IsSubseq(r, order[1..])
  }

  /**
   * The errors a validator collects when it tests its settings one after another
   * and appends the error of each missing one: `order` lists the errors in the
   * order the tests are written, `lacks` says which settings are missing.
   */
  function Select(order: seq<ErrConst>, lacks: ErrConst -> bool): (r: seq<ErrConst>)
    ensures forall x :: x in r <==> x in order && lacks(x)
    ensures IsSubseq(r, order)
  {
    if order == [] then []
    else
      var rest := Select(order[1..], lacks);
      if lacks(order[0]) then
        var r := [order[0]] + rest;
        assert r[0] == order[0] && r[1..] == rest;
        r
      else
        assert rest == [] || IsSubseq(rest, order[1..]);
        rest
  }

  /** The texts of a list of errors, in the same order. */
  function Texts(errs: seq<ErrConst>): (r: seq<string>)
    ensures |r| == |errs|
    ensures forall i :: 0 <= i < |errs| ==> r[i] == Text(errs[i])
  {
    if errs == [] then [] else [Text(errs[0])] + Texts(errs[1..])
  }
}
