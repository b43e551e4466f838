/**
 * The slice of PHP's value semantics that the update checker relies on:
 * dynamically typed values, truthiness (`empty()` / `!`), array lookups that
 * yield null for a missing key, the null-coalescing `??`, property reads on
 * objects, and the path function `dirname`.
 */
module Php {

  /**
   * A PHP value. Arrays and objects are keyed by strings; an integer key is
   * represented by its decimal text, which is indistinguishable from it for
   * the non-numeric keys looked up in this model. Floats are not modelled.
   */
  datatype Value =
    | Null
    | Bool(b: bool)
    | Int(i: int)
    | Str(s: string)
    | Array(entries: map<string, Value>)
    | Object(props: map<string, Value>)

  /** PHP's notion of an "empty" (falsy) value, as tested by `empty()` and `!`. */
  predicate Falsy(v: Value)
  {
    match v
    case Null => true
    case Bool(b) => !b
    case Int(i) => i == 0
    case Str(s) => s == "" || s == "0"
    case Array(e) => e == map[]
    case Object(_) => false
  }

  /** `$a[$key]` on an array: null when the key is missing. */
  function Get(a: map<string, Value>, key: string): Value
  {
    if key in a then a[key] else Null
  }

  /** `$v ?? $default`. */
  function Coalesce(v: Value, default: Value): (r: Value)
    ensures v.Null? ==> r == default
    ensures !v.Null? ==> r == v
  {
    if v.Null? then default else v
  }

  /** `$obj->name`: null for a missing property or when `$obj` is not an object. */
  function Prop(obj: Value, name: string): Value
  {
    if obj.Object? then Get(obj.props, name) else Null
  }

  /** Drops every trailing '/'. */
  function StripTrailingSlashes(s: string): (r: string)
    ensures r <= s
    ensures r == [] || r[|r| - 1] != '/'
    ensures forall i :: |r| <= i < |s| ==> s[i] == '/'
  {
    if s != [] && s[|s| - 1] == '/' then StripTrailingSlashes(s[..|s| - 1]) else s
  }

  /** Drops the trailing run of characters other than '/' (the last path component). */
  function StripTrailingName(s: string): (r: string)
    ensures r <= s
    ensures r == [] || r[|r| - 1] == '/'
    ensures forall i :: |r| <= i < |s| ==> s[i] != '/'
  {
    if s != [] && s[|s| - 1] != '/' then StripTrailingName(s[..|s| - 1]) else s
  }

  /**
   * PHP's `dirname` on a Unix path: trailing slashes are ignored, the last
   * component is removed together with the slashes before it; a path without
   * a directory part yields ".", one whose directory part is the root yields "/".
   */
  function Dirname(path: string): (dir: string)
    ensures path == "" ==> dir == ""
    ensures path != "" && (forall i :: 0 <= i < |path| ==> path[i] != '/') ==> dir == "."
    ensures path != "" && dir != "." ==> dir != "" && dir <= path
  {
    if path == "" then ""
    else
      var trimmed := StripTrailingSlashes(path);
      if trimmed == "" then "/"
      else
        var parent := StripTrailingName(trimmed);
        if parent == "" then "."
        else
          var dir := StripTrailingSlashes(parent);
          if dir == "" then "/" else dir
  }

  /**
   * The case that matters for plugin slugs: the directory part of
   * `dir/file`, where `file` holds no '/', is `dir` itself.
   */
  lemma DirnameOfFileInDirectory(dir: string, file: string)
    requires dir != [] && dir[|dir| - 1] != '/'
    requires file != [] && forall i :: 0 <= i < |file| ==> file[i] != '/'
    ensures Dirname(dir + "/" + file) == dir
  {
    var path := dir + "/" + file;
    assert path[|path| - 1] == file[|file| - 1];
    assert StripTrailingSlashes(path) == path;
    var parent := StripTrailingName(path);
    assert path[|dir|] == '/';
    assert |parent| == |dir| + 1;
    assert parent == dir + "/";
    var stripped := StripTrailingSlashes(parent);
    assert |stripped| == |dir|;
    assert stripped == dir;
  }
}
