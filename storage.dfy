/** The browser's `localStorage`: a string-to-string map with the keys the application uses. */
module LocalStorage {
  import opened Results

  const ApiKeyKey: string := "jules_api_key"
  const OwnerKey: string := "github_owner"
  const RepoKey: string := "github_repo"
  const BranchKey: string := "github_branch"
  const ModelKey: string := "jules_model"

  /** `getItem(key)`: the stored value, or `null` (None). */
  function GetItem(items: map<string, string>, key: string): (r: Option<string>)
    ensures r.Some? <==> key in items
    ensures r.Some? ==> r.value == items[key]
  {
    if key in items then Some(items[key]) else None
  }

  /** `getItem(key) || fallback`: an absent and an empty value both give the fallback. */
  function ItemOr(items: map<string, string>, key: string, fallback: string): (r: string)
    ensures key in items && items[key] != "" ==> r == items[key]
    ensures key !in items || items[key] == "" ==> r == fallback
  {
    var v := GetItem(items, key);
    if v.Some? && v.value != "" then v.value else fallback
  }

  class KeyValueStore {
    var items: map<string, string>

    constructor (items: map<string, string>)
      ensures this.items == items
    {
      this.items := items;
    }

    method SetItem(key: string, value: string)
      modifies this
      ensures items == old(items)[key := value]
    {
      items := items[key := value];
    }
  }
}
