/**
 * The settings page: the five configuration fields loaded from and saved to
 * the browser's storage, the save notification, and deleting a chat from the
 * history list.
 *
 * A `localStorage.setItem` that throws (a full quota) is modelled by
 * `writable`, the number of writes the storage accepts before the first that
 * throws. History entries are the user's chat documents, with their ids.
 */
module Settings {
  import opened Results
  import opened Firestore
  import LocalStorage
  import Jules

  const DefaultModel: string := "gemini-1.5-flash"
  const ProModel: string := "gemini-1.5-pro"
  const SavedMessage: string := "Settings saved successfully"
  const SaveFailedMessage: string := "Failed to save settings"

  datatype Form = Form(apiKey: string, githubOwner: string, githubRepo: string, githubBranch: string, model: string)

  datatype NoticeKind = Success | Failure
  datatype Notification = Notification(kind: NoticeKind, message: string)

  /** The load effect: each key `|| ""`, the branch `|| "main"`, the model `|| "gemini-1.5-flash"`. */
  function Loaded(items: map<string, string>): Form {
    Form(
      LocalStorage.ItemOr(items, LocalStorage.ApiKeyKey, ""),
      LocalStorage.ItemOr(items, LocalStorage.OwnerKey, ""),
      LocalStorage.ItemOr(items, LocalStorage.RepoKey, ""),
      LocalStorage.ItemOr(items, LocalStorage.BranchKey, Jules.DefaultBranch),
      LocalStorage.ItemOr(items, LocalStorage.ModelKey, DefaultModel))
  }

  /** The five writes `handleSave` makes, in order, every one unconditional. */
  function Writes(form: Form): seq<(string, string)> {
    [(LocalStorage.ApiKeyKey, form.apiKey), (LocalStorage.OwnerKey, form.githubOwner),
     (LocalStorage.RepoKey, form.githubRepo), (LocalStorage.BranchKey, form.githubBranch),
     (LocalStorage.ModelKey, form.model)]
  }

  /** The storage after the given writes, in order. */
  function Apply(items: map<string, string>, writes: seq<(string, string)>): map<string, string>
    decreases |writes|
  {
    if writes == [] then items
    else Apply(items, writes[..|writes| - 1])[writes[|writes| - 1].0 := writes[|writes| - 1].1]
  }

  /** The storage after `handleSave`: the writes up to the first that throws. */
  function Saved(items: map<string, string>, form: Form, writable: nat): map<string, string> {
    Apply(items, Writes(form)[..Written(writable, 5)])
  }

  /** How many of the first `k` writes run, when the storage accepts `writable` of them. */
  function Written(writable: nat, k: nat): nat { if writable < k then writable else k }

  /** `value || fallback` */
  function Or(value: string, fallback: string): string { if value != "" then value else fallback }

  /** One more write on top of the first `n`. */
  lemma ApplyNext(items: map<string, string>, writes: seq<(string, string)>, n: nat)
    requires n < |writes|
    ensures Apply(items, writes[..n + 1]) == Apply(items, writes[..n])[writes[n].0 := writes[n].1]
  {
    assert writes[..n + 1][..n] == writes[..n];
  }

  /** The storage after the first `k` writes of a save, `writable` of which are accepted. */
  function SavedUpTo(items: map<string, string>, form: Form, writable: nat, k: nat): map<string, string>
    requires k <= 5
  {
    Apply(items, Writes(form)[..Written(writable, k)])
  }

  lemma SaveStart(items: map<string, string>, form: Form, writable: nat)
    ensures SavedUpTo(items, form, writable, 0) == items
  {
    assert Writes(form)[..0] == [];
  }

  /** The `k`-th write of a save runs when it is accepted, and changes nothing when it throws or follows a throw. */
  lemma SaveStep(items: map<string, string>, form: Form, writable: nat, k: nat)
    requires k < 5
    ensures var w := Writes(form)[k];
      SavedUpTo(items, form, writable, k + 1)
      == if k < writable then SavedUpTo(items, form, writable, k)[w.0 := w.1] else SavedUpTo(items, form, writable, k)
    ensures k == 4 ==> SavedUpTo(items, form, writable, k + 1) == Saved(items, form, writable)
  {
    if k < writable {
      ApplyNext(items, Writes(form), k);
    }
  }

  /** A save the storage accepts in full sets each of the five keys in turn. */
  lemma SavedInFull(items: map<string, string>, form: Form, writable: nat)
    requires writable >= 5
    ensures Saved(items, form, writable)
         == items[LocalStorage.ApiKeyKey := form.apiKey][LocalStorage.OwnerKey := form.githubOwner]
                 [LocalStorage.RepoKey := form.githubRepo][LocalStorage.BranchKey := form.githubBranch]
                 [LocalStorage.ModelKey := form.model]
  {
    var w := Writes(form);
    assert w[..0] == [];
    ApplyNext(items, w, 0);
    ApplyNext(items, w, 1);
    ApplyNext(items, w, 2);
    ApplyNext(items, w, 3);
    ApplyNext(items, w, 4);
    assert w[..5] == w;
  }

  /**
   * A save that is accepted in full and then loaded gives back every field,
   * except that an empty branch reads back "main" and an empty model reads back
   * the default model.
   */
  lemma SaveLoadRoundTrip(items: map<string, string>, form: Form, writable: nat)
    requires writable >= 5
    ensures Loaded(Saved(items, form, writable))
         == form.(githubBranch := Or(form.githubBranch, Jules.DefaultBranch), model := Or(form.model, DefaultModel))
  {
    SavedInFull(items, form, writable);
  }

  /** A full save writes all five keys, empty values included, and no other key. */
  lemma SaveWritesAllFive(items: map<string, string>, form: Form, writable: nat, key: string)
    requires writable >= 5
    ensures var saved := Saved(items, form, writable);
      LocalStorage.GetItem(saved, LocalStorage.ApiKeyKey) == Some(form.apiKey)
      && LocalStorage.GetItem(saved, LocalStorage.OwnerKey) == Some(form.githubOwner)
      && LocalStorage.GetItem(saved, LocalStorage.RepoKey) == Some(form.githubRepo)
      && LocalStorage.GetItem(saved, LocalStorage.BranchKey) == Some(form.githubBranch)
      && LocalStorage.GetItem(saved, LocalStorage.ModelKey) == Some(form.model)
      && ((key !in {LocalStorage.ApiKeyKey, LocalStorage.OwnerKey, LocalStorage.RepoKey, LocalStorage.BranchKey,
                    LocalStorage.ModelKey}) ==> LocalStorage.GetItem(saved, key) == LocalStorage.GetItem(items, key))
  {
    SavedInFull(items, form, writable);
  }

  /** A save the storage refuses from the start writes nothing; one refused part-way keeps the writes before. */
  lemma PartialSave(items: map<string, string>, form: Form, writable: nat)
    requires writable < 5
    ensures Saved(items, form, 0) == items
    ensures writable > 0 ==>
      (Saved(items, form, writable)
       == Saved(items, form, writable - 1)[Writes(form)[writable - 1].0 := Writes(form)[writable - 1].1])
  {
    assert Writes(form)[..0] == [];
    if writable > 0 {
      ApplyNext(items, Writes(form), writable - 1);
    }
  }

  class SettingsPage {
    var form: Form
    var isLoading: bool
    var notification: Option<Notification>
    /** Success notifications whose three-second dismissal has not fired yet. */
    var pendingDismissals: nat
    var history: seq<ChatDoc>

    const storage: LocalStorage.KeyValueStore
    const db: Database

    constructor (storage: LocalStorage.KeyValueStore, db: Database)
      ensures this.storage == storage && this.db == db
      ensures form == Form("", "", "", Jules.DefaultBranch, DefaultModel)
      ensures !isLoading && notification == None && pendingDismissals == 0 && history == []
    {
      this.storage := storage;
      this.db := db;
      form := Form("", "", "", Jules.DefaultBranch, DefaultModel);
      isLoading, notification, pendingDismissals, history := false, None, 0, [];
    }

    /** The load effect (loading the history is not part of this model). */
    method LoadConfig()
      modifies this
      ensures form == Loaded(storage.items)
      ensures isLoading == old(isLoading) && notification == old(notification)
      ensures pendingDismissals == old(pendingDismissals) && history == old(history)
    {
      form := Loaded(storage.items);
    }

    /** The key, owner and repository inputs; the branch has no input on this page. */
    method EditApiKey(value: string)
      modifies this
      ensures form == old(form).(apiKey := value)
      ensures isLoading == old(isLoading) && notification == old(notification)
      ensures pendingDismissals == old(pendingDismissals) && history == old(history)
    {
      form := form.(apiKey := value);
    }

    method EditOwner(value: string)
      modifies this
      ensures form == old(form).(githubOwner := value)
      ensures isLoading == old(isLoading) && notification == old(notification)
      ensures pendingDismissals == old(pendingDismissals) && history == old(history)
    {
      form := form.(githubOwner := value);
    }

    method EditRepo(value: string)
      modifies this
      ensures form == old(form).(githubRepo := value)
      ensures isLoading == old(isLoading) && notification == old(notification)
      ensures pendingDismissals == old(pendingDismissals) && history == old(history)
    {
      form := form.(githubRepo := value);
    }

    /** The two model buttons. */
    method SelectModel(pro: bool)
      modifies this
      ensures form == old(form).(model := if pro then ProModel else DefaultModel)
      ensures isLoading == old(isLoading) && notification == old(notification)
      ensures pendingDismissals == old(pendingDismissals) && history == old(history)
    {
      form := form.(model := if pro then ProModel else DefaultModel);
    }

    /** One `localStorage.setItem` of `handleSave`, the `position`-th; it does not run after one has thrown. */
    method TrySet(key: string, value: string, position: nat, writable: nat, failed: bool) returns (nowFailed: bool)
      modifies storage
      ensures !failed && position < writable ==> storage.items == old(storage.items)[key := value]
      ensures failed || position >= writable ==> storage.items == old(storage.items)
      ensures nowFailed == (failed || position >= writable)
    {
      if failed || position >= writable {
        return true;
      }
      storage.SetItem(key, value);
      return false;
    }

    /** The five writes of `handleSave`'s `try` block; `failed` tells whether one threw. */
    method WriteAll(writable: nat) returns (failed: bool)
      modifies storage
      ensures storage.items == Saved(old(storage.items), form, writable)
      ensures failed == (writable < 5)
    {
      ghost var items := storage.items;
      SaveStart(items, form, writable);
      failed := TrySet(LocalStorage.ApiKeyKey, form.apiKey, 0, writable, false);
      SaveStep(items, form, writable, 0);
      failed := TrySet(LocalStorage.OwnerKey, form.githubOwner, 1, writable, failed);
      SaveStep(items, form, writable, 1);
      failed := TrySet(LocalStorage.RepoKey, form.githubRepo, 2, writable, failed);
      SaveStep(items, form, writable, 2);
      failed := TrySet(LocalStorage.BranchKey, form.githubBranch, 3, writable, failed);
      SaveStep(items, form, writable, 3);
      failed := TrySet(LocalStorage.ModelKey, form.model, 4, writable, failed);
      SaveStep(items, form, writable, 4);
    }

    /** `handleSave` */
    method HandleSave(writable: nat)
      modifies this, storage
      ensures storage.items == Saved(old(storage.items), old(form), writable)
      ensures writable >= 5 ==>
        (notification == Some(Notification(Success, SavedMessage)) && pendingDismissals == old(pendingDismissals) + 1)
      ensures writable < 5 ==>
        (notification == Some(Notification(Failure, SaveFailedMessage)) && pendingDismissals == old(pendingDismissals))
      ensures !isLoading && form == old(form) && history == old(history)
    {
      isLoading := true;
      var failed := WriteAll(writable);
      if failed {
        notification := Some(Notification(Failure, SaveFailedMessage));
      } else {
        notification := Some(Notification(Success, SavedMessage));
        pendingDismissals := pendingDismissals + 1;
      }
      isLoading := false;
    }

    /** A success notification's dismissal timer going off. */
    method DismissalFires()
      requires pendingDismissals > 0
      modifies this
      ensures notification == None && pendingDismissals == old(pendingDismissals) - 1
      ensures form == old(form) && isLoading == old(isLoading) && history == old(history)
    {
      notification := None;
      pendingDismissals := pendingDismissals - 1;
    }

    /**
     * `handleDeleteChat`: a declined confirm changes nothing; a rejected delete
     * leaves the store and the list alone; otherwise the chat document goes and
     * every history entry with that id leaves the list.
     */
    method HandleDeleteChat(chatId: string, confirmed: bool, deleteOk: bool)
      modifies this, db
      ensures confirmed && deleteOk ==>
        (db.State() == old(db.State()).DeleteChat(chatId) && history == WithoutChat(old(history), chatId))
      ensures !(confirmed && deleteOk) ==> db.State() == old(db.State()) && history == old(history)
      ensures db.Valid() == old(db.Valid())
      ensures form == old(form) && isLoading == old(isLoading) && notification == old(notification)
      ensures pendingDismissals == old(pendingDismissals)
    {
      if !confirmed {
        return;
      }
      if deleteOk {
        db.DeleteChat(chatId);
        history := WithoutChat(history, chatId);
      }
    }
  }
}
