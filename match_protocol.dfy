/** The pre-game checklist (components/MatchProtocol.tsx): five protocol
    phases with their tasks and statuses, the set of checked tasks, and the
    global completion percentage over all tasks. */
module Checklist {

  datatype PhaseStatus = Pending | Active | Completed | Warning

  datatype ProtocolPhase = ProtocolPhase(id: int, title: string, time: string, tasks: seq<string>, status: PhaseStatus)

  const InitialPhases: seq<ProtocolPhase> := [
    ProtocolPhase(1, "FASE 1 · PRUEBA DE RED", "30–45 min antes", [
      "Crear HOTSPOT dedicado (no Wi-Fi público)",
      "Conectar Smartphone NDI",
      "Conectar GoPro RTMP",
      "Conectar DJI Mini 3",
      "Verificar latencia por cámara",
      "Validar pérdida de paquetes < 0.5%",
      "Chequear temperatura inicial"], Active),
    ProtocolPhase(2, "FASE 2 · PRUEBA DE CARGA", "15 min antes", [
      "Activar 3–5 cámaras simultáneas",
      "Iniciar Marcador (Sports Engine)",
      "Activar Social Hub (AI On)",
      "Habilitar Replay Buffer (30s Circular)",
      "Monitorear RAM y FPS estables"], Pending),
    ProtocolPhase(3, "FASE 3 · TRANSMISIÓN PRIVADA", "10 min antes", [
      "Stream YouTube (Modo Oculto)",
      "Stream TikTok (Modo Oculto)",
      "Probar conmutación rápida (Fast Cut)",
      "Forzar un GOAL / HOME RUN",
      "Sincronizar Audio/Video (Offset check)"], Pending),
    ProtocolPhase(4, "FASE 4 · SIMULACIÓN DE ERROR", "Crítica", [
      "Apagar fuente secundaria (Test Reconexión)",
      "Alejar Smartphone (Test Jitter Buffer)",
      "Corte Wi-Fi 5s (Test Resiliencia)",
      "Validar audio \"Safe Mode\""], Pending),
    ProtocolPhase(5, "FASE 5 · PARTIDO REAL", "En vivo", [
      "Monitorear temperatura estable (< 45°C)",
      "Verificar Audio Lock activo",
      "Latencia global bajo umbral",
      "NO tocar ajustes complejos"], Pending)]

  // ---------------------------------------------------------------------
  // Checked tasks

  /** toggleTask: a checked task is unchecked, an unchecked one checked. */
  function Toggle(checked: set<string>, task: string): (r: set<string>)
    ensures task in r <==> task !in checked
    ensures forall t :: t != task ==> (t in r <==> t in checked)
  {
    if task in checked then checked - {task} else checked + {task}
  }

  /** Toggling the same task twice restores the checked set. */
  lemma ToggleTwice(checked: set<string>, task: string)
    ensures Toggle(Toggle(checked, task), task) == checked
  {
  }

  /** Each toggle moves the checked count by exactly one. */
  lemma ToggleCount(checked: set<string>, task: string)
    ensures task !in checked ==> |Toggle(checked, task)| == |checked| + 1
    ensures task in checked ==> |Toggle(checked, task)| == |checked| - 1
  {
  }

  // ---------------------------------------------------------------------
  // Phases

  /** updatePhaseStatus: the phase with that id gets the status; every
      other phase, and every other field, is kept. */
  function UpdateStatus(phases: seq<ProtocolPhase>, id: int, status: PhaseStatus): (r: seq<ProtocolPhase>)
    ensures |r| == |phases|
    ensures forall i :: 0 <= i < |phases| && phases[i].id == id ==> r[i] == phases[i].(status := status)
    ensures forall i :: 0 <= i < |phases| && phases[i].id != id ==> r[i] == phases[i]
  {
    seq(|phases|, i requires 0 <= i < |phases| => if phases[i].id == id then phases[i].(status := status) else phases[i])
  }

  /** Each phase's checklist items, in order. */
  function TaskLists(phases: seq<ProtocolPhase>): (r: seq<seq<string>>)
    ensures |r| == |phases| && forall i :: 0 <= i < |phases| ==> r[i] == phases[i].tasks
  {
    seq(|phases|, i requires 0 <= i < |phases| => phases[i].tasks)
  }

  /** A status change never touches any task list. */
  lemma UpdateStatusKeepsTasks(phases: seq<ProtocolPhase>, id: int, status: PhaseStatus)
    ensures TaskLists(UpdateStatus(phases, id, status)) == TaskLists(phases)
  {
  }

  /** `phases.reduce((acc, p) => acc + p.tasks.length, 0)`. */
  function TotalTasks(phases: seq<ProtocolPhase>): nat {
    if phases == [] then 0 else TotalTasks(phases[..|phases| - 1]) + |phases[|phases| - 1].tasks|
  }

  /** Every task text shown on the page. */
  function AllTasks(phases: seq<ProtocolPhase>): set<string> {
    set i, t | 0 <= i < |phases| && t in phases[i].tasks :: t
  }

  /** The total only depends on the checklist items. */
  lemma {:induction false} TotalTasksOfLists(a: seq<ProtocolPhase>, b: seq<ProtocolPhase>)
    requires TaskLists(a) == TaskLists(b)
    ensures TotalTasks(a) == TotalTasks(b)
    decreases |a|
  {
    if a != [] {
      assert |a| == |TaskLists(a)| == |b|;
      assert TaskLists(a[..|a| - 1]) == TaskLists(b[..|b| - 1]) by {
        forall i | 0 <= i < |a| - 1
          ensures a[i].tasks == b[i].tasks
        {
          assert TaskLists(a)[i] == TaskLists(b)[i];
        }
      }
      TotalTasksOfLists(a[..|a| - 1], b[..|b| - 1]);
      assert TaskLists(a)[|a| - 1] == TaskLists(b)[|b| - 1];
    }
  }

  lemma {:induction false} DistinctAtMostLength(s: seq<string>)
    ensures |set t | t in s| <= |s|
    decreases |s|
  {
    if s != [] {
      var init := s[..|s| - 1];
      DistinctAtMostLength(init);
      assert (set t | t in s) == (set t | t in init) + {s[|s| - 1]};
    }
  }

  /** There are no more distinct task texts than tasks. */
  lemma {:induction false} AllTasksWithinTotal(phases: seq<ProtocolPhase>)
    ensures |AllTasks(phases)| <= TotalTasks(phases)
    decreases |phases|
  {
    if phases != [] {
      var init := phases[..|phases| - 1];
      var last := phases[|phases| - 1].tasks;
      AllTasksWithinTotal(init);
      DistinctAtMostLength(last);
      assert AllTasks(phases) == AllTasks(init) + (set t | t in last) by {
        forall t | t in AllTasks(phases)
          ensures t in AllTasks(init) + (set t | t in last)
        {
          var i :| 0 <= i < |phases| && t in phases[i].tasks;
          if i < |phases| - 1 {
            assert init[i] == phases[i];
          }
        }
        forall t | t in AllTasks(init)
          ensures t in AllTasks(phases)
        {
          var i :| 0 <= i < |init| && t in init[i].tasks;
          assert phases[i] == init[i];
        }
      }
    }
  }

  /** The page starts with phase 1 active and 2 to 5 pending, holding 7, 5,
      5, 4 and 4 tasks: 25 in all. */
  lemma InitialPhasesShape()
    ensures |InitialPhases| == 5
    ensures forall i :: 0 <= i < 5 ==> InitialPhases[i].id == i + 1
    ensures InitialPhases[0].status == Active
    ensures forall i :: 1 <= i < 5 ==> InitialPhases[i].status == Pending
    ensures TaskLists(InitialPhases)[0] == InitialPhases[0].tasks && |InitialPhases[0].tasks| == 7
    ensures |InitialPhases[1].tasks| == 5 && |InitialPhases[2].tasks| == 5
    ensures |InitialPhases[3].tasks| == 4 && |InitialPhases[4].tasks| == 4
    ensures TotalTasks(InitialPhases) == 25
  {
    var p := InitialPhases;
    assert p[..1][..0] == [];
    assert p[..2][..1] == p[..1];
    assert p[..3][..2] == p[..2];
    assert p[..4][..3] == p[..3];
    assert p[..5][..4] == p[..4];
    assert TotalTasks(p[..1]) == 7;
    assert TotalTasks(p[..2]) == 12;
    assert TotalTasks(p[..3]) == 17;
    assert TotalTasks(p[..4]) == 21;
    assert p[..5] == p;
  }

  // ---------------------------------------------------------------------
  // The 25 tasks are 25 different texts

  /** The page's tasks, phase after phase. */
  function Flatten(phases: seq<ProtocolPhase>): seq<string>
    decreases |phases|
  {
    if phases == [] then [] else Flatten(phases[..|phases| - 1]) + phases[|phases| - 1].tasks
  }

  predicate Distinct(s: seq<string>) {
    forall i, j :: 0 <= i < j < |s| ==> s[i] != s[j]
  }

  /** No text of `a` occurs in `b`. */
  predicate Apart(a: seq<string>, b: seq<string>) {
    forall i, j :: 0 <= i < |a| && 0 <= j < |b| ==> a[i] != b[j]
  }

  lemma {:induction false} FlattenCovers(phases: seq<ProtocolPhase>)
    ensures |Flatten(phases)| == TotalTasks(phases)
    ensures (set t | t in Flatten(phases)) == AllTasks(phases)
    decreases |phases|
  {
    if phases != [] {
      var init := phases[..|phases| - 1];
      var last := phases[|phases| - 1].tasks;
      FlattenCovers(init);
      forall t | t in AllTasks(phases)
        ensures t in Flatten(phases)
      {
        var i :| 0 <= i < |phases| && t in phases[i].tasks;
        if i < |phases| - 1 {
          assert init[i] == phases[i];
          assert t in AllTasks(init);
        }
      }
      forall t | t in Flatten(phases)
        ensures t in AllTasks(phases)
      {
        if t in Flatten(init) {
          assert t in AllTasks(init);
          var i :| 0 <= i < |init| && t in init[i].tasks;
          assert phases[i] == init[i];
        }
      }
    }
  }

  /** A list of different texts has as many distinct texts as entries. */
  lemma {:induction false} DistinctCount(s: seq<string>)
    requires Distinct(s)
    ensures |set t | t in s| == |s|
    decreases |s|
  {
    if s != [] {
      var init := s[..|s| - 1];
      assert Distinct(init);
      DistinctCount(init);
      assert (set t | t in s) == (set t | t in init) + {s[|s| - 1]};
      assert s[|s| - 1] !in (set t | t in init);
    }
  }

  lemma DistinctJoin(a: seq<string>, b: seq<string>)
    requires Distinct(a) && Distinct(b) && Apart(a, b)
    ensures Distinct(a + b)
  {
    forall i, j | 0 <= i < j < |a + b|
      ensures (a + b)[i] != (a + b)[j]
    {
      if j < |a| {
        assert (a + b)[i] == a[i] && (a + b)[j] == a[j];
      } else if i < |a| {
        assert (a + b)[i] == a[i] && (a + b)[j] == b[j - |a|];
      } else {
        assert (a + b)[i] == b[i - |a|] && (a + b)[j] == b[j - |a|];
      }
    }
  }

  lemma ApartJoin(a: seq<string>, b: seq<string>, c: seq<string>)
    requires Apart(a, c) && Apart(b, c)
    ensures Apart(a + b, c)
  {
    forall i, j | 0 <= i < |a + b| && 0 <= j < |c|
      ensures (a + b)[i] != c[j]
    {
      if i < |a| {
        assert (a + b)[i] == a[i];
      } else {
        assert (a + b)[i] == b[i - |a|];
      }
    }
  }

  /** Phase by phase, and pair of phases by pair of phases, no text
      repeats. */
  lemma TasksDistinctIn1()
    ensures Distinct(InitialPhases[0].tasks)
  {
  }

  lemma TasksDistinctIn2()
    ensures Distinct(InitialPhases[1].tasks)
  {
  }

  lemma TasksDistinctIn3()
    ensures Distinct(InitialPhases[2].tasks)
  {
  }

  lemma TasksDistinctIn4()
    ensures Distinct(InitialPhases[3].tasks)
  {
  }

  lemma TasksDistinctIn5()
    ensures Distinct(InitialPhases[4].tasks)
  {
  }

  lemma TasksApart12()
    ensures Apart(InitialPhases[0].tasks, InitialPhases[1].tasks)
  {
  }

  lemma TasksApart13()
    ensures Apart(InitialPhases[0].tasks, InitialPhases[2].tasks)
  {
  }

  lemma TasksApart23()
    ensures Apart(InitialPhases[1].tasks, InitialPhases[2].tasks)
  {
  }

  lemma TasksApart14()
    ensures Apart(InitialPhases[0].tasks, InitialPhases[3].tasks)
  {
  }

  lemma TasksApart24()
    ensures Apart(InitialPhases[1].tasks, InitialPhases[3].tasks)
  {
  }

  lemma TasksApart34()
    ensures Apart(InitialPhases[2].tasks, InitialPhases[3].tasks)
  {
  }

  lemma TasksApart15()
    ensures Apart(InitialPhases[0].tasks, InitialPhases[4].tasks)
  {
  }

  lemma TasksApart25()
    ensures Apart(InitialPhases[1].tasks, InitialPhases[4].tasks)
  {
  }

  lemma TasksApart35()
    ensures Apart(InitialPhases[2].tasks, InitialPhases[4].tasks)
  {
  }

  lemma TasksApart45()
    ensures Apart(InitialPhases[3].tasks, InitialPhases[4].tasks)
  {
  }

  /** No task text is repeated on the page: there are 25 different ones. */
  lemma InitialTasksDistinct()
    ensures |AllTasks(InitialPhases)| == 25
  {
    var p := InitialPhases;
    var t0, t1, t2, t3, t4 := p[0].tasks, p[1].tasks, p[2].tasks, p[3].tasks, p[4].tasks;
    TasksDistinctIn1();
    TasksDistinctIn2();
    TasksDistinctIn3();
    TasksDistinctIn4();
    TasksDistinctIn5();
    TasksApart12();
    TasksApart13();
    TasksApart23();
    TasksApart14();
    TasksApart24();
    TasksApart34();
    TasksApart15();
    TasksApart25();
    TasksApart35();
    TasksApart45();
    DistinctJoin(t0, t1);
    ApartJoin(t0, t1, t2);
    DistinctJoin(t0 + t1, t2);
    ApartJoin(t0, t1, t3);
    ApartJoin(t0 + t1, t2, t3);
    DistinctJoin(t0 + t1 + t2, t3);
    ApartJoin(t0, t1, t4);
    ApartJoin(t0 + t1, t2, t4);
    ApartJoin(t0 + t1 + t2, t3, t4);
    DistinctJoin(t0 + t1 + t2 + t3, t4);
    assert p[..1][..0] == [];
    assert p[..2][..1] == p[..1];
    assert p[..3][..2] == p[..2];
    assert p[..4][..3] == p[..3];
    assert p[..5][..4] == p[..4];
    assert p[..5] == p;
    assert Flatten(p[..1]) == t0;
    assert Flatten(p[..2]) == t0 + t1;
    assert Flatten(p[..3]) == t0 + t1 + t2;
    assert Flatten(p[..4]) == t0 + t1 + t2 + t3;
    assert Flatten(p) == t0 + t1 + t2 + t3 + t4;
    DistinctCount(Flatten(p));
    FlattenCovers(p);
    InitialPhasesShape();
  }

  /** A subset as large as the whole set is the whole set. */
  lemma SubsetFull(a: set<string>, b: set<string>)
    requires a <= b && |a| == |b|
    ensures a == b
  {
    assert b == a + (b - a);
    assert |b - a| == 0;
  }

  // ---------------------------------------------------------------------
  // Global progress

  /** The bar's width: checked tasks over all tasks, as a percentage. */
  function ProgressPercent(checkedCount: nat, total: nat): (r: real)
    requires total > 0
    ensures checkedCount <= total ==> 0.0 <= r <= 100.0
    ensures r == 100.0 <==> checkedCount == total
  {
    ((checkedCount as real) / (total as real)) * 100.0
  }

  /** The label: `Math.round` of the percentage, which rounds halves up, in
      exact arithmetic: floor(100 c / t + 1/2). */
  function RoundedPercent(checkedCount: nat, total: nat): (r: int)
    requires total > 0
    ensures (r as real) <= ProgressPercent(checkedCount, total) + 0.5 < (r as real) + 1.0
  {
    var r := (200 * checkedCount + total) / (2 * total);
    assert r * (2 * total) <= 200 * checkedCount + total < (r + 1) * (2 * total);
    RoundingBounds(checkedCount, total, r);
    r
  }

  lemma RoundingBounds(c: nat, t: nat, r: int)
    requires t > 0 && r * (2 * t) <= 200 * c + t < (r + 1) * (2 * t)
    ensures (r as real) <= ((c as real) / (t as real)) * 100.0 + 0.5 < (r as real) + 1.0
  {
    var d, n := (2 * t) as real, (200 * c + t) as real;
    var q := (c as real) / (t as real);
    assert q * (t as real) == c as real;
    var x := q * 100.0 + 0.5;
    assert x * d == 200.0 * (q * (t as real)) + (t as real);
    QuotientOf(x, n, d);
    QuotientBounds((r * (2 * t)) as real, n, ((r + 1) * (2 * t)) as real, d);
    assert ((r * (2 * t)) as real) / d == r as real;
    assert (((r + 1) * (2 * t)) as real) / d == (r + 1) as real;
  }

  lemma QuotientOf(x: real, n: real, d: real)
    requires d > 0.0 && x * d == n
    ensures x == n / d
  {
  }

  lemma QuotientBounds(lo: real, x: real, hi: real, d: real)
    requires d > 0.0 && lo <= x < hi
    ensures lo / d <= x / d < hi / d
  {
    assert x / d - lo / d == (x - lo) / d;
    assert hi / d - x / d == (hi - x) / d;
  }

  /** With the page's 25 tasks every checked task is worth exactly 4%, so
      the label never rounds, and it stays within 0..100. */
  lemma RoundedPercentOfTwentyFive(checkedCount: nat)
    requires checkedCount <= 25
    ensures RoundedPercent(checkedCount, 25) == 4 * checkedCount
    ensures 0 <= RoundedPercent(checkedCount, 25) <= 100
  {
  }

  /** On the page's checklist the bar is full exactly when every task
      shown is checked. */
  lemma FullExactlyWhenAllChecked(checked: set<string>, phases: seq<ProtocolPhase>)
    requires TaskLists(phases) == TaskLists(InitialPhases) && checked <= AllTasks(phases)
    ensures TotalTasks(phases) == 25
    ensures ProgressPercent(|checked|, TotalTasks(phases)) == 100.0 <==> checked == AllTasks(phases)
  {
    InitialPhasesShape();
    TotalTasksOfLists(phases, InitialPhases);
    SameListsSameTasks(phases, InitialPhases);
    InitialTasksDistinct();
    if |checked| == 25 {
      SubsetFull(checked, AllTasks(phases));
    }
  }

  // ---------------------------------------------------------------------
  // The component

  class MatchProtocol {
    var phases: seq<ProtocolPhase>
    var checkedTasks: set<string>

    /** The checklist items never change, and only tasks shown can be checked. */
    ghost predicate Valid()
      reads this
    {
      TaskLists(phases) == TaskLists(InitialPhases) && checkedTasks <= AllTasks(phases)
    }

    constructor ()
      ensures Valid()
      ensures phases == InitialPhases && checkedTasks == {}
    {
      phases := InitialPhases;
      checkedTasks := {};
    }

    /** A tick of a task's checkbox; the page only offers tasks it shows. */
    method ToggleTask(task: string)
      requires Valid() && task in AllTasks(phases)
      modifies this
      ensures Valid()
      ensures checkedTasks == Toggle(old(checkedTasks), task) && phases == old(phases)
    {
      var next := checkedTasks;
      if task in next {
        next := next - {task};
      } else {
        next := next + {task};
      }
      checkedTasks := next;
    }

    /** A phase's status select. */
    method UpdatePhaseStatus(id: int, status: PhaseStatus)
      requires Valid()
      modifies this
      ensures Valid()
      ensures phases == UpdateStatus(old(phases), id, status) && checkedTasks == old(checkedTasks)
    {
      UpdateStatusKeepsTasks(phases, id, status);
      assert AllTasks(UpdateStatus(phases, id, status)) == AllTasks(phases) by {
        SameListsSameTasks(UpdateStatus(phases, id, status), phases);
      }
      phases := UpdateStatus(phases, id, status);
    }

    /** The GLOBAL PROGRESS label. */
    method ProgressLabel() returns (percent: int)
      requires Valid()
      ensures percent == RoundedPercent(|checkedTasks|, TotalTasks(phases))
      ensures percent == 4 * |checkedTasks| && 0 <= percent <= 100
      ensures percent == 100 <==> checkedTasks == AllTasks(phases)
    {
      FullExactlyWhenAllChecked(checkedTasks, phases);
      InitialPhasesShape();
      TotalTasksOfLists(phases, InitialPhases);
      CheckedWithinTotal(checkedTasks, phases);
      RoundedPercentOfTwentyFive(|checkedTasks|);
      percent := (200 * |checkedTasks| + 25) / 50;
    }
  }

  lemma SameListsSameTasks(a: seq<ProtocolPhase>, b: seq<ProtocolPhase>)
    requires TaskLists(a) == TaskLists(b)
    ensures AllTasks(a) == AllTasks(b)
  {
    forall t | t in AllTasks(a)
      ensures t in AllTasks(b)
    {
      var i :| 0 <= i < |a| && t in a[i].tasks;
      assert TaskLists(a)[i] == TaskLists(b)[i];
    }
    forall t | t in AllTasks(b)
      ensures t in AllTasks(a)
    {
      var i :| 0 <= i < |b| && t in b[i].tasks;
      assert TaskLists(a)[i] == TaskLists(b)[i];
    }
  }

  /** The checked count never exceeds the item count, so the bar never
      passes 100%. */
  lemma CheckedWithinTotal(checked: set<string>, phases: seq<ProtocolPhase>)
    requires checked <= AllTasks(phases)
    ensures |checked| <= TotalTasks(phases)
  {
    AllTasksWithinTotal(phases);
    SubsetCard(checked, AllTasks(phases));
  }

  lemma SubsetCard(a: set<string>, b: set<string>)
    requires a <= b
    ensures |a| <= |b|
  {
    assert b == a + (b - a);
  }
}
