/**
 * The react-hook-form store of a wizard page: one document of form values that the step
 * components read with `getValues` / `watch` and write with `setValue` and `reset`.
 */
module Form {
  import opened Json

  class FormStore {
    var values: Value

    constructor(defaults: Value)
      ensures values == defaults
    {
      values := defaults;
    }

    /** `form.setValue(path, x)`: writes one path and nothing else. */
    method SetValue(path: seq<string>, x: Value)
      modifies this
      ensures values == SetPath(old(values), path, x)
      ensures GetPath(values, path) == x
      ensures forall q :: Diverge(path, q) ==> GetPath(values, q) == GetPath(old(values), q)
    {
      values := SetPath(values, path, x);
      GetSetSame(old(values), path, x);
      forall q | Diverge(path, q) ensures GetPath(values, q) == GetPath(old(values), q) {
        GetSetOther(old(values), path, q, x);
      }
    }

    /** `form.reset(v)`: replaces the whole document. */
    method Reset(v: Value)
      modifies this
      ensures values == v
    {
      values := v;
    }
  }
}
