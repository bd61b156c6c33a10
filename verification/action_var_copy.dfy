/**
 * ActionVarCopy: Adventure Creator's "Variable: Copy" action.  It holds two
 * variable slots, 'from' (old*) and 'to' (new*), each a location (Global,
 * Local or Component) and a variable id; it resolves them to runtime
 * variables, copies one into the other, and rewrites or counts the slots when
 * the editor renumbers or moves variables.
 */
module VariableCopy {
  import opened Wrappers

  datatype VariableLocation = Global | Local | Component
  datatype VariableType = Boolean | Integer | String | Float | PopUp | Vector3 | GameObject | UnityObject

  /** A GVar: a variable's id, type and label. */
  datatype GVar = GVar(id: int, varType: VariableType, varLabel: string)

  /** A Variables component in the scene, identified by its instance. */
  datatype VariablesComponent = VariablesComponent(instance: nat)

  /**
   * AC's lookups that AssignValues relies on, with the action's parameter
   * list already bound: AssignVariableID, GlobalVariables.GetVariable (with
   * its synchronise flag), LocalVariables.GetVariable, AssignFile,
   * Variables.GetVariable, AssignVariable and AssignVariablesComponent.
   */
  datatype Resolver = Resolver(
    assignVariableID: (int, int) -> int,
    globalVariable: (int, bool) -> Option<GVar>,
    localVariable: int -> Option<GVar>,
    assignFile: (int, Option<VariablesComponent>) -> Option<VariablesComponent>,
    componentVariable: (VariablesComponent, int) -> Option<GVar>,
    assignVariable: (int, Option<GVar>) -> Option<GVar>,
    assignVariablesComponent: (int, Option<VariablesComponent>) -> Option<VariablesComponent>)

  /** What resolving one slot yields: its (possibly re-assigned) id, its runtime variable and, for Component, its component. */
  datatype Resolution = Resolution(variableID: int, runtimeVariable: Option<GVar>, runtimeVariables: Option<VariablesComponent>)

  /**
   * One slot of AssignValues.  The 'to' slot asks for a synchronised global
   * variable.  A Local slot in an asset file is left unresolved.
   */
  function ResolveSlot(r: Resolver, location: VariableLocation, parameterID: int, variableID: int,
                       variables: Option<VariablesComponent>, constantID: int,
                       isAssetFile: bool, synchronise: bool): (res: Resolution)
    ensures location == Local && isAssetFile ==> res.runtimeVariable.None? && res.variableID == variableID
    ensures location == Component ==> res.variableID == variableID
    ensures location != Component ==> res.runtimeVariables.None?
    ensures location == Local && !isAssetFile ==> res.runtimeVariable == r.localVariable(res.variableID)
    ensures location == Global ==> res.runtimeVariable == r.globalVariable(res.variableID, synchronise)
  {
    match location
    case Global =>
      var id := r.assignVariableID(parameterID, variableID);
      Resolution(id, r.globalVariable(id, synchronise), None)
    case Local =>
      if !isAssetFile then
        var id := r.assignVariableID(parameterID, variableID);
        Resolution(id, r.localVariable(id), None)
      else Resolution(variableID, None, None)
    case Component =>
      var runtimeVariables := r.assignFile(constantID, variables);
      var found := if runtimeVariables.Some? then r.componentVariable(runtimeVariables.value, variableID) else None;
      Resolution(variableID, r.assignVariable(parameterID, found), r.assignVariablesComponent(parameterID, runtimeVariables))
  }

  /** The calls Run makes into AC's variable system. */
  datatype Effect =
    | CopyFromVariable(target: GVar, source: GVar, sourceLocation: VariableLocation)
    | VariableChanged
    | Upload(target: GVar, location: VariableLocation, runtimeVariables: Option<VariablesComponent>)

  /** The calls made by Run: a copy, its notification and an upload, only when both variables were resolved. */
  function RunEffects(oldVar: Option<GVar>, newVar: Option<GVar>, oldLocation: VariableLocation,
                      newLocation: VariableLocation, newRuntimeVariables: Option<VariablesComponent>): (r: seq<Effect>)
    ensures r == [] <==> oldVar.None? || newVar.None?
    ensures r != [] ==> r[0] == CopyFromVariable(newVar.value, oldVar.value, oldLocation)
    ensures r != [] ==> r[|r| - 1] == Upload(newVar.value, newLocation, newRuntimeVariables)
  {
    if oldVar.Some? && newVar.Some? then
      [CopyFromVariable(newVar.value, oldVar.value, oldLocation), VariableChanged,
       Upload(newVar.value, newLocation, newRuntimeVariables)]
    else []
  }

  /** In an asset file, an action with a Local slot never copies anything. */
  lemma AssetFileLocalSlotCopiesNothing(r: Resolver, oldLocation: VariableLocation, oldParameterID: int, oldVariableID: int,
                                        oldVariables: Option<VariablesComponent>, oldConstantID: int,
                                        newLocation: VariableLocation, newParameterID: int, newVariableID: int,
                                        newVariables: Option<VariablesComponent>, newConstantID: int,
                                        newRuntimeVariables: Option<VariablesComponent>)
    requires oldLocation == Local || newLocation == Local
    ensures RunEffects(ResolveSlot(r, oldLocation, oldParameterID, oldVariableID, oldVariables, oldConstantID, true, false).runtimeVariable,
                       ResolveSlot(r, newLocation, newParameterID, newVariableID, newVariables, newConstantID, true, true).runtimeVariable,
                       oldLocation, newLocation, newRuntimeVariables) == []
  {
    var o := ResolveSlot(r, oldLocation, oldParameterID, oldVariableID, oldVariables, oldConstantID, true, false);
    var n := ResolveSlot(r, newLocation, newParameterID, newVariableID, newVariables, newConstantID, true, true);
    assert o.runtimeVariable.None? || n.runtimeVariable.None?;
  }

  /** The log of calls made into AC's variable system. */
  class VariableSystem {
    var log: seq<Effect>

    constructor ()
      ensures log == []
    {
      log := [];
    }

    method CopyFromVariable(target: GVar, source: GVar, sourceLocation: VariableLocation)
      modifies this
      ensures log == old(log) + [Effect.CopyFromVariable(target, source, sourceLocation)]
    {
      log := log + [Effect.CopyFromVariable(target, source, sourceLocation)];
    }

    method VariableChanged()
      modifies this
      ensures log == old(log) + [Effect.VariableChanged]
    {
      log := log + [Effect.VariableChanged];
    }

    method Upload(target: GVar, location: VariableLocation, runtimeVariables: Option<VariablesComponent>)
      modifies this
      ensures log == old(log) + [Effect.Upload(target, location, runtimeVariables)]
    {
      log := log + [Effect.Upload(target, location, runtimeVariables)];
    }
  }

  // ---------------------------------------------------------------------------
  // Slots and their rewriting

  /** A variable slot as the reference bookkeeping sees it. */
  datatype SlotRef = SlotRef(location: VariableLocation, variableID: int,
                             variables: Option<VariablesComponent>, constantID: int)

  /**
   * Whether a slot refers to the variable (location, varID) of the given
   * component: the location and id must match, and a Component slot must also
   * name the same live component or share a non-zero constant id.
   */
  predicate Refers(s: SlotRef, location: VariableLocation, varID: int,
                   variables: Option<VariablesComponent>, variablesConstantID: int)
  {
    s.location == location && s.variableID == varID
    && (location != Component
        || (variables.Some? && variables == s.variables)
        || (s.constantID != 0 && variablesConstantID == s.constantID))
  }

  /** A Local slot with id oldLocalID becomes the Global slot newGlobalID. */
  function ToGlobal(s: SlotRef, oldLocalID: int, newGlobalID: int): (r: SlotRef)
    ensures s.location == Local && s.variableID == oldLocalID ==> r.location == Global && r.variableID == newGlobalID
    ensures !(s.location == Local && s.variableID == oldLocalID) ==> r == s
    ensures r.variables == s.variables && r.constantID == s.constantID
  {
    if s.location == Local && s.variableID == oldLocalID then s.(location := Global, variableID := newGlobalID) else s
  }

  /** A Global slot with id oldGlobalID becomes the Local slot newLocalID, but only in the scene that owns the local variable. */
  function ToLocal(s: SlotRef, oldGlobalID: int, newLocalID: int, isCorrectScene: bool): (r: SlotRef)
    ensures s.location == Global && s.variableID == oldGlobalID && isCorrectScene ==> r.location == Local && r.variableID == newLocalID
    ensures !(s.location == Global && s.variableID == oldGlobalID && isCorrectScene) ==> r == s
    ensures r.variables == s.variables && r.constantID == s.constantID
  {
    if s.location == Global && s.variableID == oldGlobalID && isCorrectScene then s.(location := Local, variableID := newLocalID) else s
  }

  /** Moving a local variable to global and back restores every slot except one that already named the global. */
  lemma LocalGlobalRoundTrip(s: SlotRef, localID: int, globalID: int)
    ensures (ToLocal(ToGlobal(s, localID, globalID), globalID, localID, true) == s)
              <==> !(s.location == Global && s.variableID == globalID)
  {
    if s.location == Global && s.variableID == globalID {
      assert ToLocal(ToGlobal(s, localID, globalID), globalID, localID, true).location == Local;
    }
  }

  /** Outside the owning scene, moving a global variable to local changes no slot. */
  lemma WrongSceneKeepsSlot(s: SlotRef, globalID: int, localID: int)
    ensures ToLocal(s, globalID, localID, false) == s
  {
  }

  /** A slot that refers to oldVarID is moved to newVarID; any other slot is left alone. */
  function Retarget(s: SlotRef, location: VariableLocation, oldVarID: int, newVarID: int,
                    variables: Option<VariablesComponent>, variablesConstantID: int): (r: SlotRef)
    ensures Refers(s, location, oldVarID, variables, variablesConstantID) ==> r == s.(variableID := newVarID)
    ensures !Refers(s, location, oldVarID, variables, variablesConstantID) ==> r == s
  {
    if Refers(s, location, oldVarID, variables, variablesConstantID) then s.(variableID := newVarID) else s
  }

  /** After retargeting, a slot refers to the new id exactly when it referred to the old id or already to the new one. */
  lemma RetargetRefers(s: SlotRef, location: VariableLocation, oldVarID: int, newVarID: int,
                       variables: Option<VariablesComponent>, variablesConstantID: int)
    ensures (Refers(Retarget(s, location, oldVarID, newVarID, variables, variablesConstantID), location, newVarID, variables, variablesConstantID))
              <==> (Refers(s, location, oldVarID, variables, variablesConstantID) || Refers(s, location, newVarID, variables, variablesConstantID))
    ensures oldVarID != newVarID ==>
              !Refers(Retarget(s, location, oldVarID, newVarID, variables, variablesConstantID), location, oldVarID, variables, variablesConstantID)
  {
  }

  /** The number of the two slots that refer to a variable. */
  function ReferenceCount(from: SlotRef, to: SlotRef, location: VariableLocation, varID: int,
                          variables: Option<VariablesComponent>, variablesConstantID: int): (n: nat)
    ensures n <= 2
    ensures n == 0 <==> !Refers(from, location, varID, variables, variablesConstantID) && !Refers(to, location, varID, variables, variablesConstantID)
  {
    (if Refers(from, location, varID, variables, variablesConstantID) then 1 else 0)
    + (if Refers(to, location, varID, variables, variablesConstantID) then 1 else 0)
  }

  // ---------------------------------------------------------------------------
  // Searches

  /** The index of the first variable with the given id. */
  function FindVar(vars: seq<GVar>, variableID: int): (r: Option<nat>)
    ensures r.Some? ==> r.value < |vars| && vars[r.value].id == variableID
    ensures r.Some? ==> forall j :: 0 <= j < r.value ==> vars[j].id != variableID
    ensures r.None? ==> forall j :: 0 <= j < |vars| ==> vars[j].id != variableID
    decreases |vars|
  {
    if |vars| == 0 then None
    else if vars[0].id == variableID then Some(0)
    else match FindVar(vars[1..], variableID)
      case None => None
      case Some(i) => Some(i + 1)
  }

  // ---------------------------------------------------------------------------
  // The action

  class ActionVarCopy {
    var oldParameterID: int
    var oldVariableID: int
    var oldLocation: VariableLocation
    var newParameterID: int
    var newVariableID: int
    var newLocation: VariableLocation
    var oldVariables: Option<VariablesComponent>
    var oldVariablesConstantID: int
    var newVariables: Option<VariablesComponent>
    var newVariablesConstantID: int
    /** Whether the action sits in an asset-file ActionList (which has no scene, so no local variables). */
    var isAssetFile: bool
    var oldRuntimeVariable: Option<GVar>
    var newRuntimeVariable: Option<GVar>
    var newRuntimeVariables: Option<VariablesComponent>

    /**
     * CreateNew: an action copying (fromLocation, fromVariableID) into
     * (toLocation, toVariableID).  The constant ids are what
     * TryAssignConstantID finds for the two components (0 when none).
     */
    constructor CreateNew(fromLocation: VariableLocation, fromVariables: Option<VariablesComponent>, fromVariableID: int,
                          toLocation: VariableLocation, toVariables: Option<VariablesComponent>, toVariableID: int,
                          fromConstantID: int, toConstantID: int)
      ensures OldSlot() == SlotRef(fromLocation, fromVariableID, fromVariables, fromConstantID)
      ensures NewSlot() == SlotRef(toLocation, toVariableID, toVariables, toConstantID)
      ensures oldParameterID == -1 && newParameterID == -1 && !isAssetFile
      ensures oldRuntimeVariable.None? && newRuntimeVariable.None? && newRuntimeVariables.None?
    {
      oldParameterID := -1;
      newParameterID := -1;
      isAssetFile := false;
      oldRuntimeVariable := None;
      newRuntimeVariable := None;
      newRuntimeVariables := None;
      oldLocation := fromLocation;
      oldVariables := fromVariables;
      oldVariablesConstantID := fromConstantID;
      oldVariableID := fromVariableID;
      newLocation := toLocation;
      newVariables := toVariables;
      newVariablesConstantID := toConstantID;
      newVariableID := toVariableID;
    }

    /** The 'from' slot. */
    function OldSlot(): SlotRef
      reads this
    {
      SlotRef(oldLocation, oldVariableID, oldVariables, oldVariablesConstantID)
    }

    /** The 'to' slot. */
    function NewSlot(): SlotRef
      reads this
    {
      SlotRef(newLocation, newVariableID, newVariables, newVariablesConstantID)
    }

    method AssignValues(r: Resolver)
      modifies this`oldVariableID, this`oldRuntimeVariable, this`newVariableID, this`newRuntimeVariable, this`newRuntimeVariables
      ensures var res := ResolveSlot(r, oldLocation, oldParameterID, old(oldVariableID), oldVariables, oldVariablesConstantID, isAssetFile, false);
              oldVariableID == res.variableID && oldRuntimeVariable == res.runtimeVariable
      ensures var res := ResolveSlot(r, newLocation, newParameterID, old(newVariableID), newVariables, newVariablesConstantID, isAssetFile, true);
              newVariableID == res.variableID && newRuntimeVariable == res.runtimeVariable
              && newRuntimeVariables == (if newLocation == Component then res.runtimeVariables else old(newRuntimeVariables))
    {
      oldRuntimeVariable := None;
      match oldLocation {
        case Global =>
          oldVariableID := r.assignVariableID(oldParameterID, oldVariableID);
          oldRuntimeVariable := r.globalVariable(oldVariableID, false);
        case Local =>
          if !isAssetFile {
            oldVariableID := r.assignVariableID(oldParameterID, oldVariableID);
            oldRuntimeVariable := r.localVariable(oldVariableID);
          }
        case Component =>
          var oldRuntimeVariables := r.assignFile(oldVariablesConstantID, oldVariables);
          if oldRuntimeVariables.Some? {
            oldRuntimeVariable := r.componentVariable(oldRuntimeVariables.value, oldVariableID);
          }
          oldRuntimeVariable := r.assignVariable(oldParameterID, oldRuntimeVariable);
      }

      newRuntimeVariable := None;
      match newLocation {
        case Global =>
          newVariableID := r.assignVariableID(newParameterID, newVariableID);
          newRuntimeVariable := r.globalVariable(newVariableID, true);
        case Local =>
          if !isAssetFile {
            newVariableID := r.assignVariableID(newParameterID, newVariableID);
            newRuntimeVariable := r.localVariable(newVariableID);
          }
        case Component =>
          newRuntimeVariables := r.assignFile(newVariablesConstantID, newVariables);
          if newRuntimeVariables.Some? {
            newRuntimeVariable := r.componentVariable(newRuntimeVariables.value, newVariableID);
          }
          newRuntimeVariable := r.assignVariable(newParameterID, newRuntimeVariable);
          newRuntimeVariables := r.assignVariablesComponent(newParameterID, newRuntimeVariables);
      }
    }

    /** Copies and uploads only when both runtime variables were resolved; never pauses. */
    method Run(system: VariableSystem) returns (pause: real)
      modifies system
      ensures pause == 0.0
      ensures system.log == old(system.log) + RunEffects(oldRuntimeVariable, newRuntimeVariable, oldLocation, newLocation, newRuntimeVariables)
    {
      if oldRuntimeVariable.Some? && newRuntimeVariable.Some? {
        CopyVariable(system, newRuntimeVariable, oldRuntimeVariable);
        system.Upload(newRuntimeVariable.value, newLocation, newRuntimeVariables);
      }
      return 0.0;
    }

    /** Copies oldVar into newVar and reports the change; with either missing it only warns (the warning is not modelled). */
    method CopyVariable(system: VariableSystem, newVar: Option<GVar>, oldVar: Option<GVar>)
      modifies system
      ensures system.log == old(system.log)
                + (if newVar.Some? && oldVar.Some?
                   then [Effect.CopyFromVariable(newVar.value, oldVar.value, oldLocation), Effect.VariableChanged]
                   else [])
    {
      if newVar.None? || oldVar.None? {
        return;
      }
      system.CopyFromVariable(newVar.value, oldVar.value, oldLocation);
      system.VariableChanged();
    }

    /** The type of the first variable with the id, or originalType when there is none (or no list). */
    method GetVariableType(vars: Option<seq<GVar>>, variableID: int, originalType: VariableType) returns (t: VariableType)
      ensures vars.Some? && FindVar(vars.value, variableID).Some? ==> t == vars.value[FindVar(vars.value, variableID).value].varType
      ensures vars.None? || FindVar(vars.value, variableID).None? ==> t == originalType
    {
      if vars.Some? {
        var list := vars.value;
        var i := 0;
        while i < |list|
          invariant 0 <= i <= |list|
          invariant forall j :: 0 <= j < i ==> list[j].id != variableID
        {
          if list[i].id == variableID {
            FirstIsFound(list, variableID, i);
            return list[i].varType;
          }
          i := i + 1;
        }
      }
      return originalType;
    }

    /** The label of the first variable with the id, or "" when there is none. */
    method GetLabelString(vars: seq<GVar>, variableID: int) returns (text: string)
      ensures FindVar(vars, variableID).Some? ==> text == vars[FindVar(vars, variableID).value].varLabel
      ensures FindVar(vars, variableID).None? ==> text == ""
    {
      if |vars| > 0 {
        var i := 0;
        while i < |vars|
          invariant 0 <= i <= |vars|
          invariant forall j :: 0 <= j < i ==> vars[j].id != variableID
        {
          if vars[i].id == variableID {
            FirstIsFound(vars, variableID, i);
            return vars[i].varLabel;
          }
          i := i + 1;
        }
      }
      return "";
    }

    /** baseAmended is what the base Action reports for its own parameters. */
    method ConvertLocalVariableToGlobal(oldLocalID: int, newGlobalID: int, baseAmended: bool) returns (wasAmended: bool)
      modifies this`oldLocation, this`oldVariableID, this`newLocation, this`newVariableID
      ensures OldSlot() == ToGlobal(old(OldSlot()), oldLocalID, newGlobalID)
      ensures NewSlot() == ToGlobal(old(NewSlot()), oldLocalID, newGlobalID)
      ensures wasAmended <==> baseAmended || OldSlot() != old(OldSlot()) || NewSlot() != old(NewSlot())
    {
      wasAmended := baseAmended;

      if oldLocation == Local && oldVariableID == oldLocalID {
        oldLocation := Global;
        oldVariableID := newGlobalID;
        wasAmended := true;
      }

      if newLocation == Local && newVariableID == oldLocalID {
        newLocation := Global;
        newVariableID := newGlobalID;
        wasAmended := true;
      }
    }

    /** A matching Global slot is reported as amended even when, outside the owning scene, it is left unchanged. */
    method ConvertGlobalVariableToLocal(oldGlobalID: int, newLocalID: int, isCorrectScene: bool, baseAmended: bool) returns (wasAmended: bool)
      modifies this`oldLocation, this`oldVariableID, this`newLocation, this`newVariableID
      ensures OldSlot() == ToLocal(old(OldSlot()), oldGlobalID, newLocalID, isCorrectScene)
      ensures NewSlot() == ToLocal(old(NewSlot()), oldGlobalID, newLocalID, isCorrectScene)
      ensures wasAmended <==> baseAmended
                              || (old(oldLocation) == Global && old(oldVariableID) == oldGlobalID)
                              || (old(newLocation) == Global && old(newVariableID) == oldGlobalID)
    {
      wasAmended := baseAmended;

      if oldLocation == Global && oldVariableID == oldGlobalID {
        wasAmended := true;
        if isCorrectScene {
          oldLocation := Local;
          oldVariableID := newLocalID;
        }
      }

      if newLocation == Global && newVariableID == oldGlobalID {
        wasAmended := true;
        if isCorrectScene {
          newLocation := Local;
          newVariableID := newLocalID;
        }
      }
    }

    /** baseCount is the base Action's count for its parameters. */
    method GetNumVariableReferences(location: VariableLocation, varID: int, variables: Option<VariablesComponent>,
                                    variablesConstantID: int, baseCount: int) returns (count: int)
      ensures count == baseCount + ReferenceCount(OldSlot(), NewSlot(), location, varID, variables, variablesConstantID)
    {
      var thisCount := 0;

      if oldLocation == location && oldVariableID == varID {
        if location != Component || (variables.Some? && variables == oldVariables)
           || (oldVariablesConstantID != 0 && variablesConstantID == oldVariablesConstantID) {
          thisCount := thisCount + 1;
        }
      }

      if newLocation == location && newVariableID == varID {
        if location != Component || (variables.Some? && variables == newVariables)
           || (newVariablesConstantID != 0 && variablesConstantID == newVariablesConstantID) {
          thisCount := thisCount + 1;
        }
      }

      count := thisCount + baseCount;
    }

    /**
     * Retargets the 'from' slot from oldVarID to newVarID.  As written, the
     * 'to' slot is matched against newVarID and then set to that same id, so
     * it is counted when it already names newVarID but never changes.
     */
    method UpdateVariableReferences(location: VariableLocation, oldVarID: int, newVarID: int, variables: Option<VariablesComponent>,
                                    variablesConstantID: int, baseCount: int) returns (count: int)
      modifies this`oldVariableID, this`newVariableID
      ensures OldSlot() == Retarget(old(OldSlot()), location, oldVarID, newVarID, variables, variablesConstantID)
      ensures NewSlot() == old(NewSlot())
      ensures count == baseCount
                       + (if Refers(old(OldSlot()), location, oldVarID, variables, variablesConstantID) then 1 else 0)
                       + (if Refers(old(NewSlot()), location, newVarID, variables, variablesConstantID) then 1 else 0)
    {
      var thisCount := 0;

      if oldLocation == location && oldVariableID == oldVarID {
        if location != Component || (variables.Some? && variables == oldVariables)
           || (oldVariablesConstantID != 0 && variablesConstantID == oldVariablesConstantID) {
          oldVariableID := newVarID;
          thisCount := thisCount + 1;
        }
      }

      if newLocation == location && newVariableID == newVarID {
        if location != Component || (variables.Some? && variables == newVariables)
           || (newVariablesConstantID != 0 && variablesConstantID == newVariablesConstantID) {
          newVariableID := newVarID;
          thisCount := thisCount + 1;
        }
      }

      count := thisCount + baseCount;
    }
  }

  /** An index with no earlier match is the first match. */
  lemma {:induction false} FirstIsFound(vars: seq<GVar>, variableID: int, i: nat)
    requires i < |vars| && vars[i].id == variableID
    requires forall j :: 0 <= j < i ==> vars[j].id != variableID
    ensures FindVar(vars, variableID) == Some(i)
    decreases i
  {
    if i > 0 {
      FirstIsFound(vars[1..], variableID, i - 1);
    }
  }
}
