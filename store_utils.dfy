/**
  Naming of the remote file-search store that backs one repository, and the
  find-first-or-create lookup over the stores the service lists.
 */
module StoreUtils {
  import opened Text
  import opened FileTree

  const StorePrefix := "Aurora Store - "
  const CurrentStoreName := "Aurora Store - Current"

  /** A store as the service lists it: its resource name and its display name. */
  datatype Store = Store(name: string, displayName: string)

  /** `get_store_name`; `absPath` stands for `os.path.abspath`, which reads the
      process's working directory. */
  function StoreName(path: string, absPath: string -> string): (name: string)
    ensures StartsWith(name, StorePrefix)
    ensures path == "" || path == "." ==> name == CurrentStoreName
  {
    if path == "" || path == "." then CurrentStoreName
    else StorePrefix + Basename(absPath(path))
  }

  /** Any other path is named after the last component of its absolute path:
      two paths share a store exactly when those folder names agree. */
  lemma StoreNameByFolder(p: string, q: string, absPath: string -> string)
    requires p != "" && p != "." && q != "" && q != "."
    ensures StoreName(p, absPath) == StoreName(q, absPath)
      <==> Basename(absPath(p)) == Basename(absPath(q))
  {
    if StoreName(p, absPath) == StoreName(q, absPath) {
      var a := StorePrefix + Basename(absPath(p));
      var b := StorePrefix + Basename(absPath(q));
      assert Basename(absPath(p)) == a[|StorePrefix|..];
      assert Basename(absPath(q)) == b[|StorePrefix|..];
    }
  }

  /** A repository folder called `Current` shares the store of the working directory. */
  lemma CurrentFolderSharesStore(p: string, absPath: string -> string)
    requires p != "" && p != "."
    requires Basename(absPath(p)) == "Current"
    ensures StoreName(p, absPath) == StoreName(".", absPath)
  {
    assert StorePrefix + "Current" == CurrentStoreName;
  }

  /** `get_or_create_store`: the first listed store whose display name is the
      computed name, else a store created under that display name (the service
      chooses its resource name, `createdName`). */
  method GetOrCreateStore(stores: seq<Store>, path: string, absPath: string -> string, createdName: string)
    returns (store: Store, created: bool)
    ensures created <==> forall s :: s in stores ==> s.displayName != StoreName(path, absPath)
    ensures created ==> store == Store(createdName, StoreName(path, absPath))
    ensures !created ==> store.displayName == StoreName(path, absPath)
    ensures !created ==> exists i :: (0 <= i < |stores| && stores[i] == store &&
      forall j :: 0 <= j < i ==> stores[j].displayName != StoreName(path, absPath))
  {
    var displayName := StoreName(path, absPath);
    var i := 0;
    while i < |stores|
      invariant 0 <= i <= |stores|
      invariant forall j :: 0 <= j < i ==> stores[j].displayName != displayName
    {
      if stores[i].displayName == displayName {
        return stores[i], false;
      }
      i := i + 1;
    }
    return Store(createdName, displayName), true;
  }
}
