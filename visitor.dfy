/**
 * The directory visitor: a cursor over one directory listing that keeps the
 * current path in a string buffer, pushes "/name" onto it to stat an entry
 * and pops it again, descends into a child folder and climbs to a parent.
 *
 * The file system is not modelled: opening a directory yields the listing
 * readdir would return, and stat and mkdir are supplied oracles on paths.
 */
module Visitor {

  datatype Option<T> = None | Some(value: T)

  /** What stat reports for an entry's path: S_ISDIR, S_ISREG, anything else, or failure. */
  datatype StatResult = IsDirectory | IsRegular | IsOther | StatFails

  /** One directory entry as readdir returns it. */
  datatype Dirent = Dirent(name: string)

  /** The entry kinds _FOLDER, _FILE and _UNKNOWN. */
  datatype EntryType = Folder | File | Unknown

  /** The names "." and "..": one or two dots and nothing else. */
  predicate IsDotEntry(name: string)
    ensures IsDotEntry(name) <==> (|name| == 1 || |name| == 2) && forall k :: 0 <= k < |name| ==> name[k] == '.'
  {
    name == "." || name == ".."
  }

  /** The entry kind stat's mode maps to. */
  function TypeOf(st: StatResult): (r: EntryType)
    ensures r == Folder <==> st == IsDirectory
    ensures r == File <==> st == IsRegular
  {
    match st
    case IsDirectory => Folder
    case IsRegular => File
    case _ => Unknown
  }

  /** Position of the first entry that is neither "." nor "..", or |s| when there is none. */
  function FirstVisible(s: seq<Dirent>): (k: nat)
    ensures k <= |s|
    ensures forall m :: 0 <= m < k ==> IsDotEntry(s[m].name)
    ensures k < |s| ==> !IsDotEntry(s[k].name)
  {
    if s == [] then 0
    else if IsDotEntry(s[0].name) then 1 + FirstVisible(s[1..])
    else 0
  }

  /** Position of the last '/' in p, or -1 when p has none. */
  function LastSlash(p: string): (r: int)
    ensures -1 <= r < |p|
    ensures r >= 0 ==> p[r] == '/'
    ensures forall k :: r < k < |p| ==> p[k] != '/'
  {
    if p == [] then -1
    else if p[|p| - 1] == '/' then |p| - 1
    else LastSlash(p[..|p| - 1])
  }

  /**
   * The path visitor_visit_parent leaves when p is non-empty and does not end
   * in '.': its scan never looks at p[0] and its post-decrement also drops
   * the character before the last '/'.
   */
  function ParentAsWritten(p: string): (r: string)
    ensures r <= p
    ensures p != [] ==> |r| < |p|
  {
    var s := LastSlash(p);
    p[..if s >= 1 then s - 1 else 0]
  }

  /** The intended parent: everything before the last '/', or "" when there is none. */
  function ParentPath(p: string): (r: string)
    ensures r <= p
    ensures LastSlash(p) >= 0 ==> |r| < |p| && p[|r|] == '/' && forall k :: |r| < k < |p| ==> p[k] != '/'
    ensures LastSlash(p) < 0 ==> r == []
  {
    p[..if LastSlash(p) >= 0 then LastSlash(p) else 0]
  }

  /** A '/' with none after it is the last one. */
  lemma LastSlashAt(q: string, m: nat)
    requires m < |q| && q[m] == '/'
    requires forall k :: m < k < |q| ==> q[k] != '/'
    ensures LastSlash(q) == m
  {
  }

  /** The last '/' of p + "/" + name is the one just added, when name has none. */
  lemma LastSlashOfChild(p: string, name: string)
    requires forall k :: 0 <= k < |name| ==> name[k] != '/'
    ensures LastSlash(p + "/" + name) == |p|
  {
    var q := p + "/" + name;
    forall k | |p| < k < |q|
      ensures q[k] != '/'
    {
      ChildChar(p, name, k);
    }
    LastSlashAt(q, |p|);
  }

  lemma ChildChar(p: string, name: string, k: int)
    requires |p| < k < |p| + 1 + |name|
    ensures (p + "/" + name)[k] == name[k - |p| - 1]
  {
  }

  /**
   * As written, climbing back from a child folder loses the last character
   * of the parent path as well as "/name".
   */
  lemma ParentAsWrittenOfChild(p: string, name: string)
    requires p != [] && forall k :: 0 <= k < |name| ==> name[k] != '/'
    ensures ParentAsWritten(p + "/" + name) == p[..|p| - 1]
  {
    LastSlashOfChild(p, name);
  }

  /** The concrete case: "ab/cd" climbs to "a" rather than "ab". */
  lemma ParentAsWrittenExample()
    ensures ParentAsWritten("ab/cd") == "a"
    ensures ParentPath("ab/cd") == "ab"
  {
    LastSlashOfChild("ab", "cd");
    assert "ab" + "/" + "cd" == "ab/cd";
  }

  /** Intended behaviour: the parent of p + "/" + name is p. */
  lemma ParentOfChild(p: string, name: string)
    requires forall k :: 0 <= k < |name| ==> name[k] != '/'
    ensures ParentPath(p + "/" + name) == p
  {
    LastSlashOfChild(p, name);
  }

  /** struct visitor: the current path, the open directory and the cursor state. */
  class Visitor {
    var path: string
    /** The open directory stream as the entries readdir has still to return; None is NULL. */
    var root: Option<seq<Dirent>>
    var visitedAll: bool
    var currentEntry: Option<Dirent>
    var entryType: EntryType

    /** visitor_init: empty path, no directory, nothing visited, no current entry. */
    constructor ()
      ensures path == [] && root == None && !visitedAll && currentEntry == None
    {
      path := [];
      root := None;
      visitedAll := false;
      currentEntry := None;
      entryType := Unknown;
    }

    /**
     * visitor_visit: opens the directory p (listing is what opening it yields,
     * None when it is not a directory). On success p is appended to the
     * current path; on failure the stream is NULL and -1 is returned.
     */
    method Visit(p: string, listing: Option<seq<Dirent>>) returns (rc: int)
      modifies this`root, this`path, this`entryType, this`currentEntry
      ensures root == listing
      ensures listing.None? ==> rc == -1 && path == old(path)
      ensures listing.None? ==> entryType == old(entryType) && currentEntry == old(currentEntry)
      ensures listing.Some? ==> rc == 0 && path == old(path) + p && entryType == Folder && currentEntry == None
    {
      root := listing;
      if root == None {
        return -1;
      }
      path := path + p;
      entryType := Folder;
      currentEntry := None;
      return 0;
    }

    /**
     * visitor_visit_next_entry: reads entries, skipping "." and "..", until
     * one is found; stat is asked about path + "/" + name, giving its kind (0)
     * or failing (-1). At the end of the listing it sets visitedAll (1). The
     * path is restored on every return.
     */
    method NextEntry(stat: string -> StatResult) returns (rc: int)
      requires visitedAll || root.Some?
      modifies this`root, this`path, this`entryType, this`currentEntry, this`visitedAll
      ensures path == old(path)
      ensures old(visitedAll) ==>
        rc == 1 && visitedAll && root == old(root) && currentEntry == old(currentEntry) && entryType == old(entryType)
      ensures !old(visitedAll) ==>
        var s := old(root).value;
        var k := FirstVisible(s);
        if k == |s| then
          rc == 1 && visitedAll && root == Some([]) && currentEntry == None && entryType == old(entryType)
        else
          !visitedAll && root == Some(s[k + 1..]) && currentEntry == Some(s[k]) &&
          var st := stat(old(path) + "/" + s[k].name);
          (st == StatFails ==> rc == -1 && entryType == old(entryType)) &&
          (st != StatFails ==> rc == 0 && entryType == TypeOf(st))
      ensures rc == 0 ==> currentEntry.Some? && !IsDotEntry(currentEntry.value.name)
    {
      if visitedAll {
        return 1;
      }
      ghost var s := root.value;
      ghost var i := 0;
      while true
        invariant root.Some? && 0 <= i <= |s| && root.value == s[i..]
        invariant forall m :: 0 <= m < i ==> IsDotEntry(s[m].name)
        invariant path == old(path) && entryType == old(entryType) && !visitedAll
        decreases |root.value|
      {
        if root.value == [] {
          currentEntry := None;
          break;
        }
        currentEntry := Some(root.value[0]);
        root := Some(root.value[1..]);
        i := i + 1;
        var name := currentEntry.value.name;
        if name == "." || name == ".." {
          continue;
        }
        path := path + "/" + name;
        var st := stat(path);
        if st == StatFails {
          path := path[..|path| - |name| - 1];
          return -1;
        }
        entryType := TypeOf(st);
        path := path[..|path| - |name| - 1];
        return 0;
      }
      visitedAll := true;
      return 1;
    }

    /**
     * visitor_visit_child_directory: descends into the current entry when it
     * is a folder (0), otherwise refuses (-1) and keeps the path.
     */
    method VisitChildDirectory() returns (rc: int)
      requires currentEntry.Some?
      modifies this`path
      ensures entryType != Folder ==> rc == -1 && path == old(path)
      ensures entryType == Folder ==> rc == 0 && path == old(path) + "/" + currentEntry.value.name
    {
      if entryType != Folder {
        return -1;
      }
      path := path + "/" + currentEntry.value.name;
      return 0;
    }

    /**
     * visitor_visit_parent: an empty path or one ending in '.' gets "/.."
     * appended; otherwise the path is cut by the backwards scan for '/', which
     * post-decrements its index once more when it stops.
     */
    method VisitParent() returns (rc: int)
      requires root.Some?
      modifies this`path
      ensures rc == 0
      ensures old(path) == [] || old(path)[|old(path)| - 1] == '.' ==> path == old(path) + "/.."
      ensures !(old(path) == [] || old(path)[|old(path)| - 1] == '.') ==> path == ParentAsWritten(old(path))
    {
      if |path| == 0 || path[|path| - 1] == '.' {
        path := path + "/" + "..";
        return 0;
      }
      var len := |path|;
      var scanning := true;
      while scanning
        invariant 0 <= len <= |path|
        invariant scanning ==> forall k :: len < k < |path| ==> path[k] != '/'
        invariant !scanning ==> path[..len] == ParentAsWritten(path)
        decreases len + (if scanning then 1 else 0)
      {
        if len == 0 {
          scanning := false;
        } else {
          // the character at index len; index |path| is the terminating NUL
          var c := if len < |path| then path[len] else '\0';
          len := len - 1;
          if c == '/' {
            scanning := false;
          }
        }
      }
      path := path[..len];
      return 0;
    }

    /**
     * visitor_make_folder: asks mkdir for path + "/" + name; 0 when it
     * succeeds, -1 when it does not. The visitor is not changed.
     */
    method MakeFolder(name: string, mkdir: string -> bool) returns (rc: int)
      ensures rc == 0 <==> mkdir(path + "/" + name)
      ensures rc == 0 || rc == -1
    {
      var absolutePath := path + "/" + name;
      if !mkdir(absolutePath) {
        return -1;
      }
      return 0;
    }
  }
}
