/** The persisted key-value store (SharedPreferences) as a map. */
module Store {
  import opened Wrappers

  datatype StoreValue = StringValue(s: string) | FloatValue(f: real)

  type Store = map<string, StoreValue>

  const KeyUserIdentifier: string := "userIdentifier"
  const KeyMainAccountBalance: string := "mainAccountBalance"

  /** `getString(key, null)`. */
  function GetString(store: Store, key: string): Option<string>
  {
    if key in store && store[key].StringValue? then Some(store[key].s) else None
  }

  /** `getFloat(key, default)`. */
  function GetFloat(store: Store, key: string, default: real): real
  {
    if key in store && store[key].FloatValue? then store[key].f else default
  }

  /** Kotlin's `String?.toString()`: a null reference renders as "null". */
  function NullableToString(s: Option<string>): string
  {
    match s
    case Some(v) => v
    case None => "null"
  }
}
