/** The business-process list of the workflow tracker, narrowed by a status filter and a
    case-insensitive search over name and description. */
module WorkflowTracker {
  import opened Strings

  datatype BusinessProcess = BusinessProcess(id: string, name: string, description: string, processType: string, status: string,
                                             progress: real, value: real, department: string)

  /** The predicate of `filteredProcesses`. */
  predicate Shown(p: BusinessProcess, filter: string, searchTerm: string) {
    (filter == "all" || p.status == filter)
    && (Contains(Lower(p.name), Lower(searchTerm)) || Contains(Lower(p.description), Lower(searchTerm)))
  }

  /** `a` is `b` with some elements removed, the rest in their order. */
  predicate IsSubsequence(a: seq<BusinessProcess>, b: seq<BusinessProcess>)
    decreases |b|
  {
    if a == [] then true
    else if b == [] then false
    else if a[|a| - 1] == b[|b| - 1] then IsSubsequence(a[..|a| - 1], b[..|b| - 1])
    else IsSubsequence(a, b[..|b| - 1])
  }

  /** `filteredProcesses`: exactly the processes the filter and the search both let through. */
  function FilteredProcesses(processes: seq<BusinessProcess>, filter: string, searchTerm: string): (r: seq<BusinessProcess>)
    ensures |r| <= |processes|
    ensures forall p :: p in r <==> p in processes && Shown(p, filter, searchTerm)
    ensures filter != "all" ==> forall p :: p in r ==> p.status == filter
  {
    if processes == [] then []
    else
      var init := FilteredProcesses(processes[..|processes| - 1], filter, searchTerm);
      var last := processes[|processes| - 1];
      assert forall p :: p in processes <==> p in processes[..|processes| - 1] || p == last;
      if Shown(last, filter, searchTerm) then init + [last] else init
  }

  /** A shown process occurs as often as in the full list; a hidden one not at all. */
  lemma {:induction false} FilteredOccurrences(processes: seq<BusinessProcess>, filter: string, searchTerm: string, p: BusinessProcess)
    ensures multiset(FilteredProcesses(processes, filter, searchTerm))[p] ==
      if Shown(p, filter, searchTerm) then multiset(processes)[p] else 0
  {
    if processes != [] {
      var init := processes[..|processes| - 1];
      FilteredOccurrences(init, filter, searchTerm, p);
      assert multiset(processes) == multiset(init) + multiset{processes[|processes| - 1]} by {
        assert processes == init + [processes[|processes| - 1]];
      }
    }
  }

  /** The shown list keeps the order of the full list. */
  lemma {:induction false} FilteredIsSubsequence(processes: seq<BusinessProcess>, filter: string, searchTerm: string)
    ensures IsSubsequence(FilteredProcesses(processes, filter, searchTerm), processes)
  {
    if processes != [] {
      var init := processes[..|processes| - 1];
      FilteredIsSubsequence(init, filter, searchTerm);
      var r := FilteredProcesses(processes, filter, searchTerm);
      if !Shown(processes[|processes| - 1], filter, searchTerm) {
        if r != [] {
          assert r == FilteredProcesses(init, filter, searchTerm);
          assert r[|r| - 1] in r;
          if r[|r| - 1] == processes[|processes| - 1] {
            assert false;
          }
        }
      } else {
        assert r[..|r| - 1] == FilteredProcesses(init, filter, searchTerm);
      }
    }
  }

  /** With filter `'all'` and an empty search every process is shown. */
  lemma {:induction false} AllWithEmptySearch(processes: seq<BusinessProcess>)
    ensures FilteredProcesses(processes, "all", "") == processes
  {
    if processes != [] {
      AllWithEmptySearch(processes[..|processes| - 1]);
      assert Lower("") == "";
      ContainsEmpty(Lower(processes[|processes| - 1].name));
    }
  }
}
