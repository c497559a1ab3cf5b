/** The service selector of the sidebar (app.py): the grouping returned by
    `get_service_options` flattened into the list of keys the selector offers
    and the dict of labels it shows for them. */

module ServiceMenu {
  import opened Wrappers
  import OrderedDict
  import opened Services

  /** The caption `f"{specialty}: {name}"` the selector shows for a service. */
  function Caption(specialty: string, name: string): string
  {
    specialty + ": " + name
  }

  /** The (key, caption) pairs one group contributes, in the group's order. */
  function GroupEntries(specialty: string, services: seq<(string, string)>): (e: seq<(string, string)>)
    ensures |e| == |services|
    ensures forall m :: 0 <= m < |e| ==> e[m] == (services[m].0, Caption(specialty, services[m].1))
  {
    seq(|services|, m requires 0 <= m < |services| => (services[m].0, Caption(specialty, services[m].1)))
  }

  /** The (key, caption) pairs the two nested loops visit, in visiting order. */
  function Entries(groups: Groups): seq<(string, string)>
    decreases |groups|
  {
    if groups == [] then []
    else Entries(groups[..|groups| - 1]) + GroupEntries(groups[|groups| - 1].0, groups[|groups| - 1].1)
  }

  /** `service_labels` after `service_labels[key] = caption` for each pair in turn. */
  function Assign(entries: seq<(string, string)>): seq<(string, string)>
    decreases |entries|
  {
    if entries == [] then []
    else OrderedDict.Set(Assign(entries[..|entries| - 1]), entries[|entries| - 1].0, entries[|entries| - 1].1)
  }

  lemma EntriesStep(groups: Groups, j: nat)
    requires j < |groups|
    ensures Entries(groups[..j + 1]) == Entries(groups[..j]) + GroupEntries(groups[j].0, groups[j].1)
  {
    assert groups[..j + 1][..j] == groups[..j];
  }

  lemma AssignStep(done: seq<(string, string)>, key: string, caption: string)
    ensures Assign(done + [(key, caption)]) == OrderedDict.Set(Assign(done), key, caption)
  {
    assert (done + [(key, caption)])[..|done|] == done;
  }

  /** The flattening loop: `service_options` gets every key in visiting
      order, `service_labels` maps each key to its caption. */
  method FlattenOptions(groups: Groups) returns (options: seq<string>, labels: seq<(string, string)>)
    ensures options == OrderedDict.Keys(Entries(groups))
    ensures labels == Assign(Entries(groups))
  {
    options := [];
    labels := [];
    for j := 0 to |groups|
      invariant options == OrderedDict.Keys(Entries(groups[..j]))
      invariant labels == Assign(Entries(groups[..j]))
    {
      var (specialty, services) := groups[j];
      EntriesStep(groups, j);
      options, labels := AppendGroup(options, labels, Entries(groups[..j]), specialty, services);
    }
    assert groups[..|groups|] == groups;
  }

  /** The inner loop over one specialty's services: the options and labels
      built so far for the pairs `before` are extended with that group's pairs. */
  method AppendGroup(options: seq<string>, labels: seq<(string, string)>, ghost before: seq<(string, string)>,
                     specialty: string, services: seq<(string, string)>)
    returns (options': seq<string>, labels': seq<(string, string)>)
    requires options == OrderedDict.Keys(before) && labels == Assign(before)
    ensures options' == OrderedDict.Keys(before + GroupEntries(specialty, services))
    ensures labels' == Assign(before + GroupEntries(specialty, services))
  {
    options', labels' := options, labels;
    assert before + GroupEntries(specialty, services[..0]) == before;
    for m := 0 to |services|
      invariant options' == OrderedDict.Keys(before + GroupEntries(specialty, services[..m]))
      invariant labels' == Assign(before + GroupEntries(specialty, services[..m]))
    {
      var (key, name) := services[m];
      var caption := specialty + ": " + name;
      ghost var done := before + GroupEntries(specialty, services[..m]);
      assert before + GroupEntries(specialty, services[..m + 1]) == done + [(key, caption)];
      AssignStep(done, key, caption);
      options' := options' + [key];
      labels' := OrderedDict.Set(labels', key, caption);
    }
    assert services[..|services|] == services;
  }

  /** Assigning pairs with distinct keys builds exactly those pairs, in order. */
  lemma {:induction false} AssignDistinct(entries: seq<(string, string)>)
    requires OrderedDict.DistinctKeys(entries)
    ensures Assign(entries) == entries
    decreases |entries|
  {
    if entries != [] {
      var n := |entries| - 1;
      var init := entries[..n];
      assert OrderedDict.DistinctKeys(init);
      AssignDistinct(init);
      assert entries[n].0 !in OrderedDict.Keys(init) by {
        forall i | 0 <= i < n ensures init[i].0 != entries[n].0 {
          assert init[i] == entries[i];
        }
      }
      OrderedDict.SetNew(init, entries[n].0, entries[n].1);
      assert init + [entries[n]] == entries;
    }
  }

  /** The pairs of the groups before group `j` form a prefix of all pairs. */
  lemma {:induction false} EntriesPrefix(groups: Groups, j: nat)
    requires j <= |groups|
    ensures |Entries(groups[..j])| <= |Entries(groups)|
    ensures Entries(groups)[..|Entries(groups[..j])|] == Entries(groups[..j])
    decreases |groups|
  {
    if j == |groups| {
      assert groups[..j] == groups;
    } else {
      var init := groups[..|groups| - 1];
      EntriesPrefix(init, j);
      assert init[..j] == groups[..j];
    }
  }

  /** Grouping order: service `m` of group `j` comes right after the services
      of the earlier groups and the first `m` of its own group. */
  lemma EntryAt(groups: Groups, j: nat, m: nat) returns (p: nat)
    requires j < |groups| && m < |groups[j].1|
    ensures p == |Entries(groups[..j])| + m
    ensures p < |Entries(groups)|
    ensures Entries(groups)[p] == (groups[j].1[m].0, Caption(groups[j].0, groups[j].1[m].1))
  {
    p := |Entries(groups[..j])| + m;
    EntriesPrefix(groups, j + 1);
    EntriesStep(groups, j);
  }

  /** Every pair comes from some service of some group. */
  lemma {:induction false} EntryOrigin(groups: Groups, p: nat)
    requires p < |Entries(groups)|
    ensures exists j, m ::
      && 0 <= j < |groups| && 0 <= m < |groups[j].1|
      && Entries(groups)[p] == (groups[j].1[m].0, Caption(groups[j].0, groups[j].1[m].1))
    decreases |groups|
  {
    var n := |groups| - 1;
    var init := groups[..n];
    var front := Entries(init);
    if p < |front| {
      EntryOrigin(init, p);
      var j, m :| 0 <= j < |init| && 0 <= m < |init[j].1|
        && front[p] == (init[j].1[m].0, Caption(init[j].0, init[j].1[m].1));
      assert init[j] == groups[j];
    } else {
      var m := p - |front|;
      assert Entries(groups)[p] == GroupEntries(groups[n].0, groups[n].1)[m];
    }
  }

  lemma DistinctConcat(a: seq<(string, string)>, b: seq<(string, string)>)
    requires OrderedDict.DistinctKeys(a) && OrderedDict.DistinctKeys(b)
    requires forall p, q :: 0 <= p < |a| && 0 <= q < |b| ==> a[p].0 != b[q].0
    ensures OrderedDict.DistinctKeys(a + b)
  {
    var c := a + b;
    forall i, j | 0 <= i < j < |c| ensures c[i].0 != c[j].0 {
      if j < |a| {
        assert c[i] == a[i] && c[j] == a[j];
      } else if i >= |a| {
        assert c[i] == b[i - |a|] && c[j] == b[j - |a|];
      } else {
        assert c[i] == a[i] && c[j] == b[j - |a|];
      }
    }
  }

  /** Two services with the same key, filed in groups of a table with
      distinct keys, sit in the same group. */
  lemma SameKeySameGroup(t: seq<(string, ServiceContext)>, groups: Groups,
                         j1: nat, m1: nat, j2: nat, m2: nat)
    requires OrderedDict.DistinctKeys(t) && OrderedDict.DistinctKeys(groups)
    requires GroupsHoldRows(t, groups)
    requires j1 < |groups| && m1 < |groups[j1].1| && j2 < |groups| && m2 < |groups[j2].1|
    ensures groups[j1].1[m1].0 == groups[j2].1[m2].0 ==> j1 == j2
  {
    if groups[j1].1[m1].0 == groups[j2].1[m2].0 {
      assert ListedIn(t, groups[j1].0, groups[j1].1[m1]);
      assert ListedIn(t, groups[j2].0, groups[j2].1[m2]);
      var i1 :| 0 <= i1 < |t| && t[i1].0 == groups[j1].1[m1].0 && t[i1].1.specialty == groups[j1].0;
      var i2 :| 0 <= i2 < |t| && t[i2].0 == groups[j2].1[m2].0 && t[i2].1.specialty == groups[j2].0;
      assert i1 == i2;
      assert groups[j1].0 == groups[j2].0;
    }
  }

  /** Flattening a grouping of a table with distinct keys offers no key twice. */
  lemma {:induction false} EntriesDistinct(t: seq<(string, ServiceContext)>, groups: Groups)
    requires OrderedDict.DistinctKeys(t) && OrderedDict.DistinctKeys(groups)
    requires GroupsHoldRows(t, groups)
    ensures OrderedDict.DistinctKeys(Entries(groups))
    decreases |groups|
  {
    if groups != [] {
      var n := |groups| - 1;
      var init := groups[..n];
      assert OrderedDict.DistinctKeys(init) by {
        forall i, j | 0 <= i < j < |init| ensures init[i].0 != init[j].0 {
          assert init[i] == groups[i] && init[j] == groups[j];
        }
      }
      assert GroupsHoldRows(t, init) by {
        forall j | 0 <= j < |init| ensures init[j] == groups[j] {}
      }
      EntriesDistinct(t, init);
      var front := Entries(init);
      var last := GroupEntries(groups[n].0, groups[n].1);
      assert OrderedDict.DistinctKeys(groups[n].1);
      assert OrderedDict.DistinctKeys(last) by {
        forall i, j | 0 <= i < j < |last| ensures last[i].0 != last[j].0 {
          assert last[i].0 == groups[n].1[i].0 && last[j].0 == groups[n].1[j].0;
        }
      }
      forall p, q | 0 <= p < |front| && 0 <= q < |last| ensures front[p].0 != last[q].0 {
        EntryOrigin(init, p);
        var j, m :| 0 <= j < |init| && 0 <= m < |init[j].1|
          && front[p] == (init[j].1[m].0, Caption(init[j].0, init[j].1[m].1));
        assert init[j] == groups[j];
        SameKeySameGroup(t, groups, j, m, n, q);
      }
      DistinctConcat(front, last);
    }
  }

  /** For any grouping of a table by specialty, the selector offers every key
      of the table exactly once and nothing else, and labels each with its
      row's specialty and name. */
  lemma MenuOfGrouping(t: seq<(string, ServiceContext)>, groups: Groups)
    requires OrderedDict.DistinctKeys(t) && GroupsTable(t, groups)
    ensures OrderedDict.DistinctKeys(Entries(groups))
    ensures Assign(Entries(groups)) == Entries(groups)
    ensures forall i :: 0 <= i < |t| ==>
      OrderedDict.Get(Entries(groups), t[i].0) == Some(Caption(t[i].1.specialty, t[i].1.name))
    ensures forall k :: k in OrderedDict.Keys(Entries(groups)) ==>
      exists i :: 0 <= i < |t| && t[i].0 == k
  {
    EntriesDistinct(t, groups);
    AssignDistinct(Entries(groups));
    forall i | 0 <= i < |t|
      ensures OrderedDict.Get(Entries(groups), t[i].0) == Some(Caption(t[i].1.specialty, t[i].1.name))
    {
      assert Files(groups, t[i].1.specialty, t[i].0, t[i].1.name);
      MenuLabelsFiled(groups, t[i].1.specialty, t[i].0, t[i].1.name);
    }
    forall k | k in OrderedDict.Keys(Entries(groups)) ensures exists i :: 0 <= i < |t| && t[i].0 == k {
      MenuKeyFromTable(t, groups, k);
    }
  }

  /** A service filed in the groups is offered under its key with its caption. */
  lemma MenuLabelsFiled(groups: Groups, specialty: string, key: string, name: string)
    requires Files(groups, specialty, key, name)
    requires OrderedDict.DistinctKeys(Entries(groups))
    ensures OrderedDict.Get(Entries(groups), key) == Some(Caption(specialty, name))
  {
    var j, m := FiledAt(groups, specialty, key, name);
    var p := EntryAt(groups, j, m);
    OrderedDict.GetEntry(Entries(groups), p);
  }

  /** Where a filed service sits: group `j`, position `m` within it. */
  lemma FiledAt(groups: Groups, specialty: string, key: string, name: string) returns (j: nat, m: nat)
    requires Files(groups, specialty, key, name)
    ensures j < |groups| && m < |groups[j].1|
    ensures groups[j].0 == specialty && groups[j].1[m] == (key, name)
  {
    var members := OrderedDict.Get(groups, specialty).value;
    OrderedDict.GetFound(groups, specialty);
    j :| 0 <= j < |groups| && groups[j] == (specialty, members);
    OrderedDict.GetFound(members, key);
    m :| 0 <= m < |members| && members[m] == (key, name);
  }

  /** Every key the selector offers is a key of the table. */
  lemma MenuKeyFromTable(t: seq<(string, ServiceContext)>, groups: Groups, k: string)
    requires GroupsTable(t, groups)
    requires k in OrderedDict.Keys(Entries(groups))
    ensures exists i :: 0 <= i < |t| && t[i].0 == k
  {
    var e := Entries(groups);
    var p :| 0 <= p < |e| && OrderedDict.Keys(e)[p] == k;
    EntryOrigin(groups, p);
    var j, m :| 0 <= j < |groups| && 0 <= m < |groups[j].1|
      && e[p] == (groups[j].1[m].0, Caption(groups[j].0, groups[j].1[m].1));
    assert ListedIn(t, groups[j].0, groups[j].1[m]);
  }

  /** The selector built from the rotation table: each of its keys offered
      once, in grouping order, labelled "<specialty>: <name>". */
  lemma TableMenu()
    ensures var e := Entries(GroupBySpecialty(Table()));
      && OrderedDict.DistinctKeys(e)
      && Assign(e) == e
      && (forall i :: 0 <= i < |Table()| ==>
            OrderedDict.Get(e, Table()[i].0) == Some(Caption(Table()[i].1.specialty, Table()[i].1.name)))
      && (forall k :: k in OrderedDict.Keys(e) ==> exists i :: 0 <= i < |Table()| && Table()[i].0 == k)
  {
    TableKeysDistinct();
    TableGrouped();
    MenuOfGrouping(Table(), GroupBySpecialty(Table()));
  }
}
