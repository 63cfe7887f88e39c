/** From the system calls to the store: what the disk may bring back under a file's name, while the file is
    replaced through a temporary one and after, is what the store's disk remembers. */
module StoreOnFiles {
  import opened Wrappers
  import opened SettingsStore
  import opened StoreResults
  import opened StoreDisk
  import Files

  /** What is read under the file's name is what the store takes to be there. */
  ghost predicate Shows(render: Text -> string, read: Option<string>, config: Entry) {
    match config
    case Missing => read == None
    case Unreadable => false
    case Holds(text) => read == Some(render(text))
  }

  /** A crash now brings back one of these, and may bring back any. */
  ghost predicate BringsBack(render: Text -> string, d: Files.Disk, target: string, configs: set<Entry>) {
    forall read ::
      Files.CrashReads(d, target, read) <==> exists config | config in configs :: Shows(render, read, config)
  }

  lemma SettledBringsBackOne(render: Text -> string, d: Files.Disk, target: string, config: Entry)
    requires Files.Settled(d, target) && Shows(render, Files.Read(d, target), config)
    ensures BringsBack(render, d, target, {config})
  {
    forall read ensures Files.CrashReads(d, target, read) <==> read == Files.Read(d, target) {
      if Files.CrashReads(d, target, read) {
        var view :| view in d.views && Files.ViewReads(d, view, target, read);
        assert Files.SameAt(view, d.names, target);
      } else {
        assert !Files.ViewReads(d, d.names, target, read);
      }
    }
  }

  /** Replacing the file as `WriteFileAtomically` does is `Replace`: once it is stored a crash brings back what the
      store's disk remembers after it, neither more nor less; and while it is under way, nothing but that. */
  lemma ReplacingRemembers(render: Text -> string, origin: Files.Disk, d: Files.Disk, target: string, m: Medium,
                           text: Text, read: Option<string>)
    requires MediumInv(m) && Ours(Holds(text)) && BringsBack(render, origin, target, Recoverable(m))
    ensures Files.AddsOne(origin, d, target, render(text))
        ==> BringsBack(render, d, target, Recoverable(Replace(m, text)))
    ensures Files.Recoverable(origin, d, target, render(text)) && Files.CrashReads(d, target, read)
        ==> exists config | config in Recoverable(Replace(m, text)) :: Shows(render, read, config)
  {
    ReplaceKeeps(m, text);
    var configs := Recoverable(Replace(m, text));
    assert Shows(render, Some(render(text)), Holds(text));
    forall read
      ensures (exists config | config in configs :: Shows(render, read, config))
         <==> Files.CrashReads(origin, target, read) || read == Some(render(text))
    {
      if config :| config in configs && Shows(render, read, config) {
        assert config in Recoverable(m) || config == Holds(text);
      }
    }
  }
}
