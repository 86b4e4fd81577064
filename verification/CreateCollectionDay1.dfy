/**
 * The Day-1 "Create collection" screen: the simulated creation workflow
 * (submit always fails, retry always succeeds and then hands the collection
 * name to the screen's owner), the buttons it disables, the VPC-endpoint and
 * AWS-service token lists, and the capacity rows of the easy-create summary.
 *
 * The screen is an object whose handlers overwrite its fields. A callback
 * scheduled with `setTimeout` is a `Timer` waiting in a queue; `FireTimer`
 * runs the oldest one.
 */
module CreateCollectionDay1 {
  import opened Wrappers
  import opened Text
  import opened Seqs

  // ---------------------------------------------------------------------------
  // Workflow steps and timers
  // ---------------------------------------------------------------------------

  // `caption` stands for the source's `label` field (`label` is a Dafny keyword).
  datatype StepStatus = InProgress | Success | Error
  datatype Step = Step(caption: string, status: StepStatus)

  const CreatingStep: Step := Step("Creating collection", InProgress)
  const FailedStep: Step := Step("Failed to create collection", Error)
  const CreatedStep: Step := Step("Created collection", Success)

  /** The name handed to the owner when the collection name field is empty. */
  const FallbackCollectionName: string := "new-collection"

  datatype Timer =
    | SubmitFails                  // the 2000 ms timer `handleSubmit` sets
    | RetrySucceeds(name: string)  // the 2000 ms timer `handleRetry` sets, with the name its closure saw
    | NotifyCreated(name: string)  // the 500 ms timer that calls `onCollectionCreated`

  /** The stages of the workflow, from mounting to the owner being told. */
  datatype Phase = Idle | Creating | Failed | Retrying | Created | Notified

  /**
   * The workflow stage that a combination of `isCreating`, `hasError`,
   * `creationSteps` and the pending timers stands for, if any.
   */
  function PhaseOf(isCreating: bool, hasError: bool, steps: seq<Step>, timers: seq<Timer>): Option<Phase> {
    if !isCreating && !hasError && steps == [CreatingStep] && timers == [] then Some(Idle)
    else if isCreating && !hasError && steps == [CreatingStep] && timers == [SubmitFails] then Some(Creating)
    else if !isCreating && hasError && steps == [FailedStep] && timers == [] then Some(Failed)
    else if isCreating && !hasError && steps == [CreatingStep] && |timers| == 1 && timers[0].RetrySucceeds? then Some(Retrying)
    else if isCreating && !hasError && steps == [CreatedStep] && |timers| == 1 && timers[0].NotifyCreated? then Some(Created)
    else if isCreating && !hasError && steps == [CreatedStep] && timers == [] then Some(Notified)
    else None
  }

  /**
   * In every stage there is exactly one step, at most one timer is pending,
   * the flags are never both set, the step shows an error exactly when
   * `hasError` is set, and once the step shows success `isCreating` stays set.
   */
  lemma PhaseShape(isCreating: bool, hasError: bool, steps: seq<Step>, timers: seq<Timer>)
    requires PhaseOf(isCreating, hasError, steps, timers).Some?
    ensures |steps| == 1 && |timers| <= 1
    ensures !(isCreating && hasError)
    ensures steps[0].status == Error <==> hasError
    ensures steps[0].status == Success ==> isCreating
  {
  }

  /** The moves the workflow can make: forward along Idle, Creating, Failed, Retrying, Created, Notified. */
  predicate Advances(from: Phase, to: Phase) {
    || (from == Idle && to == Creating)
    || (from == Creating && to == Failed)
    || (from == Failed && to == Retrying)
    || (from == Retrying && to == Created)
    || (from == Created && to == Notified)
  }

  /** `formData.collectionName || 'new-collection'`: never empty, and the entered name when there is one. */
  function CreatedName(name: string): (r: string)
    ensures r != []
    ensures name != [] ==> r == name
    ensures name == [] ==> r == FallbackCollectionName
  {
    if name == [] then FallbackCollectionName else name
  }

  // ---------------------------------------------------------------------------
  // Token lists
  // ---------------------------------------------------------------------------

  datatype Token = Token(caption: string, dismissCaption: string)

  const VpcLabelPrefix: string := "VPCe id = "
  const ServiceLabelPrefix: string := "Service = "

  function VpcToken(v: string): Token {
    Token(VpcLabelPrefix + v, "Remove " + v)
  }

  function ServiceToken(v: string): Token {
    Token(ServiceLabelPrefix + v, "Remove " + v)
  }

  /**
   * The VPC selection guard as written: the value is non-empty and no token's
   * caption is equal to it. Labels carry the "VPCe id = " prefix, so the guard
   * compares the value with text it was never stored as.
   */
  predicate VpcAccepts(tokens: seq<Token>, v: string) {
    v != [] && !(exists i :: 0 <= i < |tokens| && tokens[i].caption == v)
  }

  /** The service selection guard: the value is non-empty and no token's caption includes it. */
  predicate ServiceAccepts(tokens: seq<Token>, v: string) {
    v != [] && !(exists i :: 0 <= i < |tokens| && Contains(tokens[i].caption, v))
  }

  /** The list after selecting VPC endpoint `v`. */
  function AddVpcEndpoint(tokens: seq<Token>, v: string): (r: seq<Token>)
    ensures |tokens| <= |r| <= |tokens| + 1 && r[..|tokens|] == tokens
    ensures |r| > |tokens| <==> VpcAccepts(tokens, v)
    ensures |r| > |tokens| ==> r[|tokens|] == VpcToken(v)
  {
    if VpcAccepts(tokens, v) then tokens + [VpcToken(v)] else tokens
  }

  /** The list after selecting service `v`. */
  function AddAwsService(tokens: seq<Token>, v: string): (r: seq<Token>)
    ensures |tokens| <= |r| <= |tokens| + 1 && r[..|tokens|] == tokens
    ensures |r| > |tokens| <==> ServiceAccepts(tokens, v)
    ensures |r| > |tokens| ==> r[|tokens|] == ServiceToken(v)
  {
    if ServiceAccepts(tokens, v) then tokens + [ServiceToken(v)] else tokens
  }

  predicate AllVpcTokens(tokens: seq<Token>) {
    forall i :: 0 <= i < |tokens| ==> StartsWith(tokens[i].caption, VpcLabelPrefix)
  }

  /**
   * Selecting the same VPC endpoint twice adds it twice: on a list built by the
   * handler, the duplicate check never fires for a value that does not itself
   * start with "VPCe id = ".
   */
  lemma VpcRepeatIsAdded(tokens: seq<Token>, v: string)
    requires AllVpcTokens(tokens)
    requires v != [] && !StartsWith(v, VpcLabelPrefix)
    ensures AddVpcEndpoint(AddVpcEndpoint(tokens, v), v) == tokens + [VpcToken(v), VpcToken(v)]
  {
    var once := tokens + [VpcToken(v)];
    assert VpcAccepts(tokens, v);
    assert AllVpcTokens(once) by {
      assert once[|tokens|].caption == VpcLabelPrefix + v;
    }
    assert VpcAccepts(once, v);
    assert once + [VpcToken(v)] == tokens + [VpcToken(v), VpcToken(v)];
  }

  /** The duplicate check rejects only values that themselves carry the "VPCe id = " prefix. */
  lemma VpcRejectsOnlyPrefixed(tokens: seq<Token>, v: string)
    requires AllVpcTokens(tokens)
    requires v != [] && !VpcAccepts(tokens, v)
    ensures StartsWith(v, VpcLabelPrefix)
  {
    var i :| 0 <= i < |tokens| && tokens[i].caption == v;
    assert StartsWith(tokens[i].caption, VpcLabelPrefix);
  }

  /** Once a service is in the list, selecting it again changes nothing. */
  lemma ServiceRepeatIsRejected(tokens: seq<Token>, v: string)
    requires v != []
    ensures var once := AddAwsService(tokens, v);
      AddAwsService(once, v) == once
  {
    var once := AddAwsService(tokens, v);
    if ServiceAccepts(tokens, v) {
      ContainsAppended(ServiceLabelPrefix, v);
      assert Contains(once[|tokens|].caption, v);
    }
  }

  /** Any part of a chosen service's name is refused as well (the check is `includes`). */
  lemma ServicePartIsRejected(tokens: seq<Token>, w: string, v: string)
    requires ServiceAccepts(tokens, w)
    requires v != [] && Contains(w, v)
    ensures !ServiceAccepts(AddAwsService(tokens, w), v)
  {
    var once := AddAwsService(tokens, w);
    ContainsInAppended(ServiceLabelPrefix, w, v);
    assert Contains(once[|tokens|].caption, v);
  }

  // ---------------------------------------------------------------------------
  // Easy-create summary
  // ---------------------------------------------------------------------------

  datatype GroupOption = GroupOption(
    caption: string,
    value: string,
    minIndexing: string,
    maxIndexing: string,
    minSearch: string,
    maxSearch: string,
    minIndexingRam: string,
    maxIndexingRam: string,
    minSearchRam: string,
    maxSearchRam: string)

  /** The group the easy-create selector starts on. */
  const DefaultGroup: GroupOption :=
    GroupOption("serverlessV2_27121", "serverlessV2_27121", "0", "96", "0", "96", "", "576 GB RAM", "", "576 GB RAM")

  /** `existingCollectionGroups`. */
  const ExistingCollectionGroups: seq<GroupOption> := [
    DefaultGroup,
    GroupOption("serverlessV2_27122", "serverlessV2_27122", "0", "48", "0", "48", "", "288 GB RAM", "", "288 GB RAM"),
    GroupOption("production-group", "production-group", "0", "96", "0", "96", "", "576 GB RAM", "", "576 GB RAM")
  ]

  /** The position `find` stops at: the first group with the value, or the length if none has it. */
  function FindIndex(groups: seq<GroupOption>, value: string): (k: nat)
    ensures k <= |groups|
    ensures forall j :: 0 <= j < k ==> groups[j].value != value
    ensures k < |groups| ==> groups[k].value == value
    decreases |groups|
  {
    if groups == [] then 0
    else if groups[0].value == value then 0
    else 1 + FindIndex(groups[1..], value)
  }

  /** `groups.find(g => g.value === value)`. */
  function FindGroup(groups: seq<GroupOption>, value: string): (r: Option<GroupOption>)
    ensures r.None? <==> forall i :: 0 <= i < |groups| ==> groups[i].value != value
    ensures r.Some? ==>
      exists k :: 0 <= k < |groups| && groups[k] == r.value && r.value.value == value &&
        forall j :: 0 <= j < k ==> groups[j].value != value
  {
    var k := FindIndex(groups, value);
    if k < |groups| then Some(groups[k]) else None
  }

  /** `getSelectedGroupDetails`. */
  function SelectedGroupDetails(selected: Option<GroupOption>): (r: Option<GroupOption>)
    ensures selected.None? ==> r.None?
    ensures selected.Some? ==>
      (exists i :: 0 <= i < |ExistingCollectionGroups| && ExistingCollectionGroups[i].value == selected.value.value) ==>
        r.Some?
    ensures r.Some? ==> r.value in ExistingCollectionGroups && r.value.value == selected.value.value
  {
    match selected
    case None => None
    case Some(g) => FindGroup(ExistingCollectionGroups, g.value)
  }

  /** `${min} - ${max} OCUs`, followed by ` (${ram})` only when the RAM text is non-empty. */
  function CapacityText(min: string, max: string, ram: string): (r: string)
    ensures StartsWith(r, min + " - " + max + " OCUs")
    ensures ram == [] ==> r == min + " - " + max + " OCUs"
    ensures ram != [] ==> r[|min + " - " + max + " OCUs"|..] == " (" + ram + ")"
    ensures r[|r| - 1] == ')' <==> ram != []
  {
    min + " - " + max + " OCUs" + (if ram != [] then " (" + ram + ")" else [])
  }

  /** The "Indexing capacity (OCUs)" row. */
  function IndexingCapacityRow(details: Option<GroupOption>): string {
    match details
    case None => "-"
    case Some(g) => CapacityText(g.minIndexing, g.maxIndexing, g.maxIndexingRam)
  }

  /** The "Search capacity (OCUs)" row. */
  function SearchCapacityRow(details: Option<GroupOption>): string {
    match details
    case None => "-"
    case Some(g) => CapacityText(g.minSearch, g.maxSearch, g.maxSearchRam)
  }

  /** The "Collection group name" row. */
  function GroupNameRow(selected: Option<GroupOption>): (r: string)
    ensures selected.None? ==> r == "Select a collection group"
    ensures selected.Some? ==> r == selected.value.caption
  {
    match selected
    case None => "Select a collection group"
    case Some(g) => g.caption
  }

  /**
   * Both capacity rows show "-" exactly when nothing is selected or no
   * existing group has the selected value.
   */
  /** A found group's rows show its own figures: indexing in one row, search in the other. */
  lemma CapacityRowsShowFoundGroup(selected: Option<GroupOption>, g: GroupOption)
    ensures SelectedGroupDetails(selected) == Some(g) ==>
      && IndexingCapacityRow(SelectedGroupDetails(selected)) == CapacityText(g.minIndexing, g.maxIndexing, g.maxIndexingRam)
      && SearchCapacityRow(SelectedGroupDetails(selected)) == CapacityText(g.minSearch, g.maxSearch, g.maxSearchRam)
  {
  }

  lemma CapacityRowsDashIffNoGroup(selected: Option<GroupOption>)
    ensures var none := selected.None? ||
          forall i :: 0 <= i < |ExistingCollectionGroups| ==> ExistingCollectionGroups[i].value != selected.value.value;
      && (IndexingCapacityRow(SelectedGroupDetails(selected)) == "-" <==> none)
      && (SearchCapacityRow(SelectedGroupDetails(selected)) == "-" <==> none)
  {
    match SelectedGroupDetails(selected)
    case None =>
    case Some(g) =>
      assert |CapacityText(g.minIndexing, g.maxIndexing, g.maxIndexingRam)| > 1;
      assert |CapacityText(g.minSearch, g.maxSearch, g.maxSearchRam)| > 1;
  }

  /** The summary the screen opens with. */
  lemma DefaultSummaryRows()
    ensures GroupNameRow(Some(DefaultGroup)) == "serverlessV2_27121"
    ensures IndexingCapacityRow(SelectedGroupDetails(Some(DefaultGroup))) == "0 - 96 OCUs (576 GB RAM)"
    ensures SearchCapacityRow(SelectedGroupDetails(Some(DefaultGroup))) == "0 - 96 OCUs (576 GB RAM)"
  {
    DefaultGroupFound();
    DefaultCapacityText();
  }

  lemma DefaultGroupFound()
    ensures SelectedGroupDetails(Some(DefaultGroup)) == Some(DefaultGroup)
  {
    assert FindIndex(ExistingCollectionGroups, DefaultGroup.value) == 0;
  }

  lemma DefaultCapacityText()
    ensures CapacityText("0", "96", "576 GB RAM") == "0 - 96 OCUs (576 GB RAM)"
  {
  }

  // ---------------------------------------------------------------------------
  // Screen state
  // ---------------------------------------------------------------------------

  datatype CreationMethod = EasyCreate | StandardCreate

  class CreateCollectionForm {
    var collectionName: string
    var creationMethod: CreationMethod
    var easyCreateSelectedGroup: Option<GroupOption>
    var selectedVpcEndpoints: seq<Token>
    var selectedAwsServices: seq<Token>
    var vpcInputValue: string
    var serviceInputValue: string
    var isCreating: bool
    var hasError: bool
    var creationSteps: seq<Step>
    var timers: seq<Timer>

    ghost predicate Valid()
      reads this
    {
      PhaseOf(isCreating, hasError, creationSteps, timers).Some?
    }

    function Phase(): Phase
      reads this
      requires Valid()
    {
      PhaseOf(isCreating, hasError, creationSteps, timers).value
    }

    /** The primary button is enabled unless creating, failed, or easy create has no group. */
    function SubmitEnabled(): bool
      reads this
    {
      !(isCreating || hasError || (creationMethod == EasyCreate && easyCreateSelectedGroup.None?))
    }

    /** The Cancel button is disabled while creating. */
    function CancelEnabled(): bool
      reads this
    {
      !isCreating
    }

    twostate predicate FormUnchanged()
      reads this
    {
      && collectionName == old(collectionName)
      && creationMethod == old(creationMethod)
      && easyCreateSelectedGroup == old(easyCreateSelectedGroup)
      && selectedVpcEndpoints == old(selectedVpcEndpoints)
      && selectedAwsServices == old(selectedAwsServices)
      && vpcInputValue == old(vpcInputValue)
      && serviceInputValue == old(serviceInputValue)
    }

    twostate predicate WorkflowUnchanged()
      reads this
    {
      && isCreating == old(isCreating) && hasError == old(hasError)
      && creationSteps == old(creationSteps) && timers == old(timers)
    }

    /** The screen as it mounts: easy create, the first existing group, nothing running. */
    constructor ()
      ensures Valid() && Phase() == Idle && SubmitEnabled() && CancelEnabled()
      ensures collectionName == [] && creationMethod == EasyCreate
      ensures easyCreateSelectedGroup == Some(DefaultGroup)
      ensures selectedVpcEndpoints == [] && selectedAwsServices == []
      ensures vpcInputValue == [] && serviceInputValue == []
    {
      collectionName := [];
      creationMethod := EasyCreate;
      easyCreateSelectedGroup := Some(DefaultGroup);
      selectedVpcEndpoints := [];
      selectedAwsServices := [];
      vpcInputValue := [];
      serviceInputValue := [];
      isCreating := false;
      hasError := false;
      creationSteps := [CreatingStep];
      timers := [];
    }

    /**
     * A click on the primary button. When it is enabled, `handleSubmit` runs:
     * creating is set, the error cleared, the one step shows "Creating
     * collection" in progress, and the failure timer is set. A disabled
     * button does nothing.
     */
    method Submit()
      requires Valid()
      modifies this
      ensures Valid() && FormUnchanged()
      ensures old(SubmitEnabled()) ==>
        && isCreating && !hasError && creationSteps == [CreatingStep]
        && timers == old(timers) + [SubmitFails]
        && old(Phase()) == Idle && Phase() == Creating
      ensures !old(SubmitEnabled()) ==> WorkflowUnchanged()
    {
      if SubmitEnabled() {
        assert Phase() == Idle && timers == [];
        isCreating := true;
        hasError := false;
        creationSteps := [CreatingStep];
        timers := [SubmitFails];
      }
    }

    /**
     * A click on the error panel's Retry button (the panel is shown only while
     * `hasError` is set): the error is cleared, creating is set, the one step
     * shows "Creating collection" in progress, and the success timer is set
     * with the collection name as it is now.
     */
    method Retry()
      requires Valid()
      modifies this
      ensures Valid() && FormUnchanged()
      ensures old(hasError) ==>
        && !hasError && isCreating && creationSteps == [CreatingStep]
        && timers == old(timers) + [RetrySucceeds(collectionName)]
        && old(Phase()) == Failed && Phase() == Retrying
      ensures !old(hasError) ==> WorkflowUnchanged()
    {
      if hasError {
        assert Phase() == Failed && timers == [];
        hasError := false;
        isCreating := true;
        creationSteps := [CreatingStep];
        timers := [RetrySucceeds(collectionName)];
      }
    }

    /**
     * The oldest pending timer fires. The failure timer replaces the step by
     * "Failed to create collection" with an error status, clears creating and
     * sets the error. The success timer replaces the step by "Created
     * collection" with a success status and sets the notification timer,
     * leaving creating set. The notification timer calls the owner's
     * `onCollectionCreated` with the name, or "new-collection" if it is empty;
     * that call is the result.
     */
    method FireTimer() returns (created: Option<string>)
      requires Valid()
      modifies this
      ensures Valid() && FormUnchanged()
      ensures old(timers) == [] ==> WorkflowUnchanged() && created == None
      ensures old(timers) != [] ==> Advances(old(Phase()), Phase())
      ensures old(timers) != [] && old(timers[0]).SubmitFails? ==>
        && creationSteps == [FailedStep] && !isCreating && hasError
        && timers == old(timers[1..]) && created == None
      ensures old(timers) != [] && old(timers[0]).RetrySucceeds? ==>
        && creationSteps == [CreatedStep] && isCreating && !hasError
        && timers == old(timers[1..]) + [NotifyCreated(old(timers[0]).name)] && created == None
      ensures old(timers) != [] && old(timers[0]).NotifyCreated? ==>
        && creationSteps == old(creationSteps)
        && isCreating && !hasError && timers == old(timers[1..])
        && created == Some(CreatedName(old(timers[0]).name))
    {
      if timers == [] {
        return None;
      }
      var t := timers[0];
      timers := timers[1..];
      match t {
        case SubmitFails =>
          creationSteps := [FailedStep];
          isCreating := false;
          hasError := true;
          created := None;
        case RetrySucceeds(name) =>
          creationSteps := [CreatedStep];
          timers := timers + [NotifyCreated(name)];
          created := None;
        case NotifyCreated(name) =>
          created := Some(CreatedName(name));
      }
    }

    /** A click on Cancel: the owner's `onCancel` runs exactly when the button is enabled. */
    method Cancel() returns (cancelled: bool)
      ensures cancelled <==> !isCreating
    {
      cancelled := CancelEnabled();
    }

    /** The name input's change handler; the input is disabled while creating. */
    method ChangeCollectionName(name: string)
      requires Valid()
      modifies this
      ensures Valid() && WorkflowUnchanged()
      ensures collectionName == if old(isCreating) then old(collectionName) else name
      ensures creationMethod == old(creationMethod) && easyCreateSelectedGroup == old(easyCreateSelectedGroup)
      ensures selectedVpcEndpoints == old(selectedVpcEndpoints) && selectedAwsServices == old(selectedAwsServices)
      ensures vpcInputValue == old(vpcInputValue) && serviceInputValue == old(serviceInputValue)
    {
      if !isCreating {
        collectionName := name;
      }
    }

    method ChangeCreationMethod(m: CreationMethod)
      requires Valid()
      modifies this
      ensures Valid() && WorkflowUnchanged()
      ensures creationMethod == m
      ensures collectionName == old(collectionName) && easyCreateSelectedGroup == old(easyCreateSelectedGroup)
      ensures selectedVpcEndpoints == old(selectedVpcEndpoints) && selectedAwsServices == old(selectedAwsServices)
      ensures vpcInputValue == old(vpcInputValue) && serviceInputValue == old(serviceInputValue)
    {
      creationMethod := m;
    }

    /** The easy-create group selector's change handler. */
    method SelectGroup(g: GroupOption)
      requires Valid()
      modifies this
      ensures Valid() && WorkflowUnchanged()
      ensures easyCreateSelectedGroup == Some(g)
      ensures collectionName == old(collectionName) && creationMethod == old(creationMethod)
      ensures selectedVpcEndpoints == old(selectedVpcEndpoints) && selectedAwsServices == old(selectedAwsServices)
      ensures vpcInputValue == old(vpcInputValue) && serviceInputValue == old(serviceInputValue)
    {
      easyCreateSelectedGroup := Some(g);
    }

    method ChangeVpcInput(v: string)
      requires Valid()
      modifies this
      ensures Valid() && WorkflowUnchanged()
      ensures vpcInputValue == v
      ensures collectionName == old(collectionName) && creationMethod == old(creationMethod)
      ensures easyCreateSelectedGroup == old(easyCreateSelectedGroup)
      ensures selectedVpcEndpoints == old(selectedVpcEndpoints) && selectedAwsServices == old(selectedAwsServices)
      ensures serviceInputValue == old(serviceInputValue)
    {
      vpcInputValue := v;
    }

    method ChangeServiceInput(v: string)
      requires Valid()
      modifies this
      ensures Valid() && WorkflowUnchanged()
      ensures serviceInputValue == v
      ensures collectionName == old(collectionName) && creationMethod == old(creationMethod)
      ensures easyCreateSelectedGroup == old(easyCreateSelectedGroup)
      ensures selectedVpcEndpoints == old(selectedVpcEndpoints) && selectedAwsServices == old(selectedAwsServices)
      ensures vpcInputValue == old(vpcInputValue)
    {
      serviceInputValue := v;
    }

    /**
     * The VPC endpoint selector's select handler: when the guard accepts the
     * value, a "VPCe id = v" token is appended and the input is cleared;
     * otherwise nothing changes.
     */
    method SelectVpcEndpoint(v: string)
      requires Valid()
      modifies this
      ensures Valid() && WorkflowUnchanged()
      ensures selectedVpcEndpoints == AddVpcEndpoint(old(selectedVpcEndpoints), v)
      ensures vpcInputValue == if VpcAccepts(old(selectedVpcEndpoints), v) then [] else old(vpcInputValue)
      ensures collectionName == old(collectionName) && creationMethod == old(creationMethod)
      ensures easyCreateSelectedGroup == old(easyCreateSelectedGroup)
      ensures selectedAwsServices == old(selectedAwsServices) && serviceInputValue == old(serviceInputValue)
    {
      if VpcAccepts(selectedVpcEndpoints, v) {
        selectedVpcEndpoints := selectedVpcEndpoints + [VpcToken(v)];
        vpcInputValue := [];
      }
    }

    /** The VPC token group's dismiss handler: the token at `index` leaves, the others stay in order. */
    method DismissVpcEndpoint(index: int)
      requires Valid()
      modifies this
      ensures Valid() && WorkflowUnchanged()
      ensures 0 <= index < |old(selectedVpcEndpoints)| ==>
        selectedVpcEndpoints == old(selectedVpcEndpoints[..index]) + old(selectedVpcEndpoints[index + 1..])
      ensures !(0 <= index < |old(selectedVpcEndpoints)|) ==> selectedVpcEndpoints == old(selectedVpcEndpoints)
      ensures collectionName == old(collectionName) && creationMethod == old(creationMethod)
      ensures easyCreateSelectedGroup == old(easyCreateSelectedGroup) && vpcInputValue == old(vpcInputValue)
      ensures selectedAwsServices == old(selectedAwsServices) && serviceInputValue == old(serviceInputValue)
    {
      RemoveAtSplices(selectedVpcEndpoints, index);
      selectedVpcEndpoints := RemoveAt(selectedVpcEndpoints, index);
    }

    /**
     * The service selector's select handler: when the guard accepts the value,
     * a "Service = v" token is appended and the input is cleared; otherwise
     * nothing changes.
     */
    method SelectAwsService(v: string)
      requires Valid()
      modifies this
      ensures Valid() && WorkflowUnchanged()
      ensures selectedAwsServices == AddAwsService(old(selectedAwsServices), v)
      ensures serviceInputValue == if ServiceAccepts(old(selectedAwsServices), v) then [] else old(serviceInputValue)
      ensures collectionName == old(collectionName) && creationMethod == old(creationMethod)
      ensures easyCreateSelectedGroup == old(easyCreateSelectedGroup)
      ensures selectedVpcEndpoints == old(selectedVpcEndpoints) && vpcInputValue == old(vpcInputValue)
    {
      if ServiceAccepts(selectedAwsServices, v) {
        selectedAwsServices := selectedAwsServices + [ServiceToken(v)];
        serviceInputValue := [];
      }
    }

    /** The service token group's dismiss handler. */
    method DismissAwsService(index: int)
      requires Valid()
      modifies this
      ensures Valid() && WorkflowUnchanged()
      ensures 0 <= index < |old(selectedAwsServices)| ==>
        selectedAwsServices == old(selectedAwsServices[..index]) + old(selectedAwsServices[index + 1..])
      ensures !(0 <= index < |old(selectedAwsServices)|) ==> selectedAwsServices == old(selectedAwsServices)
      ensures collectionName == old(collectionName) && creationMethod == old(creationMethod)
      ensures easyCreateSelectedGroup == old(easyCreateSelectedGroup) && serviceInputValue == old(serviceInputValue)
      ensures selectedVpcEndpoints == old(selectedVpcEndpoints) && vpcInputValue == old(vpcInputValue)
    {
      RemoveAtSplices(selectedAwsServices, index);
      selectedAwsServices := RemoveAt(selectedAwsServices, index);
    }
  }

  /**
   * What the buttons allow in each stage: submit only before the first
   * attempt, Cancel exactly before it and after the failure, neither while a
   * timer is running nor after success.
   */
  lemma EnablementByPhase(form: CreateCollectionForm)
    requires form.Valid()
    ensures form.SubmitEnabled() ==> form.Phase() == Idle
    ensures form.CancelEnabled() <==> form.Phase() == Idle || form.Phase() == Failed
    ensures form.Phase() == Idle ==>
      (form.SubmitEnabled() <==> form.creationMethod == StandardCreate || form.easyCreateSelectedGroup.Some?)
    ensures form.Phase() != Idle && form.Phase() != Failed ==> !form.SubmitEnabled() && !form.CancelEnabled()
  {
  }

  /**
   * The whole scenario: submit, the failure, retry, the success and the
   * notification. The owner is told the name entered before the retry; the
   * primary button is disabled after the failure and stays disabled to the
   * end, while Cancel is offered after the failure and withdrawn at the end.
   */
  method SubmitFailRetrySucceed(name: string)
    returns (created: Option<string>, submitAfterFailure: bool, cancelAfterFailure: bool,
             submitAtEnd: bool, cancelAtEnd: bool)
    ensures created == Some(CreatedName(name))
    ensures !submitAfterFailure && cancelAfterFailure
    ensures !submitAtEnd && !cancelAtEnd
  {
    var form := new CreateCollectionForm();
    form.ChangeCollectionName(name);
    form.Submit();
    var none := form.FireTimer();
    assert form.Phase() == Failed;
    submitAfterFailure, cancelAfterFailure := form.SubmitEnabled(), form.CancelEnabled();
    form.Retry();
    none := form.FireTimer();
    assert form.Phase() == Created;
    created := form.FireTimer();
    assert form.Phase() == Notified;
    submitAtEnd, cancelAtEnd := form.SubmitEnabled(), form.CancelEnabled();
  }
}
