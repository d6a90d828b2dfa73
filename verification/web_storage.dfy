/** The browser's Web Storage areas (`localStorage`, `sessionStorage`) as
    string-to-string maps, and the JavaScript truthiness the session code
    relies on when it chains lookups with `||`. */
module WebStorage {

  datatype Option<+T> = None | Some(value: T)

  /** One storage area: keys to string values. */
  type Store = map<string, string>

  /** `getItem(k)`: the stored value, or `null` (None) when the key is absent. */
  function GetItem(s: Store, k: string): (v: Option<string>)
    ensures v.Some? <==> k in s
    ensures v.Some? ==> v.value == s[k]
  {
    if k in s then Some(s[k]) else None
  }

  /** Truthiness of a `string | null`: `null` and `""` are falsy, every other string is truthy. */
  predicate Truthy(v: Option<string>) {
    v.Some? && v.value != ""
  }

  /** `a || b` on `string | null` operands: `a` when it is truthy, otherwise `b`. */
  function Or(a: Option<string>, b: Option<string>): (r: Option<string>)
    ensures Truthy(a) ==> r == a
    ensures !Truthy(a) ==> r == b
  {
    if Truthy(a) then a else b
  }
}
