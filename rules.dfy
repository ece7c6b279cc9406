/** The rule registry view: the local copy of the white-traffic filter rules, the "new rule"
    draft, the single edit slot, and the handlers that change them after a server reply. */
module Rules {
  import opened Api
  import JsArray

  type RuleId = int

  /** The editable fields of a rule, as the add form and the edit row hold them. */
  datatype RuleDraft = RuleDraft(name: string, description: string, conditions: string, active: bool)

  /** A rule as the server lists it: a server-assigned id and its fields. */
  datatype Rule = Rule(id: RuleId, fields: RuleDraft)

  /** The `name` attributes of the form's inputs. */
  datatype Field = Name | Description | Conditions | Active

  /** What an `onChange` event target carries: its name, its text value and its checked state. */
  datatype InputEvent = InputEvent(name: Field, value: string, checked: bool)

  datatype FieldValue = Text(text: string) | Flag(flag: bool)

  /** The requests the view issues; the base URL and the bearer header are not modelled. */
  datatype Request =
    | ListRules
    | CreateRule(body: RuleDraft)
    | UpdateRule(target: RuleId, rule: Rule)
    | DeleteRule(target: RuleId)
    | TestRule(target: RuleId)

  const EmptyDraft := RuleDraft("", "", "", true)

  const FetchFailed := "获取规则失败，请重试"
  const AddFailed := "添加规则失败，请重试"
  const UpdateFailed := "更新规则失败，请重试"
  const DeleteFailed := "删除规则失败，请重试"
  const TestFailed := "测试规则失败，请重试"
  const TestResultPrefix := "规则测试结果: "

  /** Only the `active` input is rendered as a checkbox. */
  predicate IsCheckbox(f: Field)
  {
    f == Active
  }

  function Get(d: RuleDraft, f: Field): FieldValue
  {
    match f
    case Name => Text(d.name)
    case Description => Text(d.description)
    case Conditions => Text(d.conditions)
    case Active => Flag(d.active)
  }

  /** `{...draft, [name]: type === 'checkbox' ? checked : value}`. */
  function ApplyInput(d: RuleDraft, e: InputEvent): (r: RuleDraft)
    ensures Get(r, e.name) == if IsCheckbox(e.name) then Flag(e.checked) else Text(e.value)
    ensures forall f :: f != e.name ==> Get(r, f) == Get(d, f)
  {
    match e.name
    case Name => d.(name := e.value)
    case Description => d.(description := e.value)
    case Conditions => d.(conditions := e.value)
    case Active => d.(active := e.checked)
  }

  /** A later change to the same field overwrites an earlier one. */
  lemma ApplyInputOverwrites(d: RuleDraft, e1: InputEvent, e2: InputEvent)
    requires e1.name == e2.name
    ensures ApplyInput(ApplyInput(d, e1), e2) == ApplyInput(d, e2)
  {
  }

  /** Changes to different fields do not interfere. */
  lemma ApplyInputCommutes(d: RuleDraft, e1: InputEvent, e2: InputEvent)
    requires e1.name != e2.name
    ensures ApplyInput(ApplyInput(d, e1), e2) == ApplyInput(ApplyInput(d, e2), e1)
  {
  }

  function IdOf(r: Rule): RuleId
  {
    r.id
  }

  /** The ids present in a rule list. */
  function Ids(rules: seq<Rule>): set<RuleId>
  {
    set r | r in rules :: r.id
  }

  ghost predicate UniqueIds(rules: seq<Rule>)
  {
    JsArray.DistinctBy(rules, IdOf)
  }

  function ReplaceWith(id: RuleId, saved: Rule): Rule -> Rule
  {
    (rule: Rule) => if rule.id == id then saved else rule
  }

  function OtherThan(id: RuleId): Rule -> bool
  {
    (rule: Rule) => rule.id != id
  }

  /** `rules.map(rule => rule.id === id ? saved : rule)`. */
  function ReplaceById(rules: seq<Rule>, id: RuleId, saved: Rule): (r: seq<Rule>)
    ensures |r| == |rules|
    ensures forall i :: 0 <= i < |rules| && rules[i].id == id ==> r[i] == saved
    ensures forall i :: 0 <= i < |rules| && rules[i].id != id ==> r[i] == rules[i]
  {
    JsArray.Map(rules, ReplaceWith(id, saved))
  }

  /** `rules.filter(rule => rule.id !== id)`. */
  function RemoveById(rules: seq<Rule>, id: RuleId): (r: seq<Rule>)
    ensures |r| <= |rules|
    ensures forall rule :: rule in r <==> rule in rules && rule.id != id
  {
    JsArray.Filter(rules, OtherThan(id))
  }

  /** Creating a rule adds exactly the server's id; a fresh id keeps the ids unique. */
  lemma CreateIds(rules: seq<Rule>, created: Rule)
    ensures Ids(rules + [created]) == Ids(rules) + {created.id}
    ensures UniqueIds(rules) && created.id !in Ids(rules) ==> UniqueIds(rules + [created])
  {
  }

  /** Replacing by id swaps the edited id for the id of the server's reply, and nothing else. */
  lemma UpdateIds(rules: seq<Rule>, id: RuleId, saved: Rule)
    ensures Ids(ReplaceById(rules, id, saved)) == if id in Ids(rules) then Ids(rules) - {id} + {saved.id} else Ids(rules)
  {
  }

  /** A reply that keeps the edited id keeps the ids unique. */
  lemma UpdateKeepsUnique(rules: seq<Rule>, id: RuleId, saved: Rule)
    requires UniqueIds(rules) && saved.id == id
    ensures UniqueIds(ReplaceById(rules, id, saved))
  {
  }

  /** Updating an id that is not listed leaves the list as it was. */
  lemma UpdateAbsent(rules: seq<Rule>, id: RuleId, saved: Rule)
    requires id !in Ids(rules)
    ensures ReplaceById(rules, id, saved) == rules
  {
  }

  /** Saving the same reply twice changes nothing the second time, whatever id the reply carries. */
  lemma UpdateIdempotent(rules: seq<Rule>, id: RuleId, saved: Rule)
    ensures ReplaceById(ReplaceById(rules, id, saved), id, saved) == ReplaceById(rules, id, saved)
  {
  }

  /** Deleting removes exactly the deleted id and keeps the ids unique. */
  lemma DeleteIds(rules: seq<Rule>, id: RuleId)
    ensures Ids(RemoveById(rules, id)) == Ids(rules) - {id}
    ensures UniqueIds(rules) ==> UniqueIds(RemoveById(rules, id))
  {
    var r := RemoveById(rules, id);
    forall x | x in Ids(rules) - {id} ensures x in Ids(r) {
      var k :| 0 <= k < |rules| && rules[k].id == x;
      assert rules[k] in rules;
    }
    if UniqueIds(rules) {
      JsArray.FilterKeepsDistinct(rules, OtherThan(id), IdOf);
    }
  }

  /** Deleting keeps the survivors in their order: it distributes over concatenation. */
  lemma DeleteKeepsOrder(front: seq<Rule>, back: seq<Rule>, id: RuleId)
    ensures RemoveById(front + back, id) == RemoveById(front, id) + RemoveById(back, id)
  {
    JsArray.FilterConcat(front, back, OtherThan(id));
  }

  /** Deleting an id that is not listed leaves the list as it was. */
  lemma DeleteAbsent(rules: seq<Rule>, id: RuleId)
    requires id !in Ids(rules)
    ensures RemoveById(rules, id) == rules
  {
    forall i | 0 <= i < |rules| ensures OtherThan(id)(rules[i]) {
      assert rules[i] in rules;
    }
    JsArray.FilterKeepsAll(rules, OtherThan(id));
  }

  /** Deleting removes one element per rule carrying the id. */
  lemma DeleteLength(rules: seq<Rule>, id: RuleId)
    ensures |RemoveById(rules, id)| == |rules| - JsArray.Rejected(rules, OtherThan(id))
  {
    JsArray.FilterLength(rules, OtherThan(id));
  }

  /** The component's state: `rules`, `loading`, `error`, `newRule`, `editingRule`, `showAddForm`. */
  class RuleManagement {
    var rules: seq<Rule>
    var loading: bool
    var error: string
    var newRule: RuleDraft
    var editingRule: Option<Rule>
    var showAddForm: bool

    /** The state of the first render, before the mount effect's fetch. */
    constructor ()
      ensures rules == [] && loading && error == ""
      ensures newRule == EmptyDraft && editingRule == None && !showAddForm
    {
      rules := [];
      loading := true;
      error := "";
      newRule := EmptyDraft;
      editingRule := None;
      showAddForm := false;
    }

    /** `fetchRules`: run on mount. */
    method FetchRules(reply: Reply<seq<Rule>>) returns (req: Request)
      modifies this
      ensures req == ListRules
      ensures !loading
      ensures reply.Ok? ==> rules == reply.payload && error == ""
      ensures reply.Err? ==> rules == old(rules) && error == FetchFailed
      ensures newRule == old(newRule) && editingRule == old(editingRule) && showAddForm == old(showAddForm)
    {
      loading := true;
      req := ListRules;
      if reply.Ok? {
        rules := reply.payload;
        error := "";
      } else {
        error := FetchFailed;
      }
      loading := false;
    }

    /** `handleInputChange`: the edit draft takes the change when an edit is open, otherwise the new-rule draft. */
    method HandleInputChange(e: InputEvent)
      modifies this
      ensures old(editingRule).Some? ==>
                editingRule == Some(old(editingRule).value.(fields := ApplyInput(old(editingRule).value.fields, e)))
                && newRule == old(newRule)
      ensures old(editingRule).None? ==> newRule == ApplyInput(old(newRule), e) && editingRule == None
      ensures rules == old(rules) && loading == old(loading) && error == old(error) && showAddForm == old(showAddForm)
    {
      if editingRule.Some? {
        var r := editingRule.value;
        editingRule := Some(r.(fields := ApplyInput(r.fields, e)));
      } else {
        newRule := ApplyInput(newRule, e);
      }
    }

    /** `handleAddRule`: post the draft as it is; on success append the server's rule, reset the draft, close the form. */
    method HandleAddRule(reply: Reply<Rule>) returns (req: Request)
      modifies this
      ensures req == CreateRule(old(newRule))
      ensures reply.Ok? ==> rules == old(rules) + [reply.payload] && newRule == EmptyDraft && !showAddForm
                            && error == old(error)
      ensures reply.Err? ==> rules == old(rules) && newRule == old(newRule) && showAddForm == old(showAddForm)
                             && error == AddFailed
      ensures editingRule == old(editingRule) && loading == old(loading)
    {
      req := CreateRule(newRule);
      if reply.Ok? {
        rules := rules + [reply.payload];
        newRule := EmptyDraft;
        showAddForm := false;
      } else {
        error := AddFailed;
      }
    }

    /** `handleUpdateRule`: put the edit draft to its id; on success replace by id and close the edit.
        With no edit open, reading `editingRule.id` throws inside the `try` and only the error is set. */
    method HandleUpdateRule(reply: Reply<Rule>) returns (req: Option<Request>)
      modifies this
      ensures old(editingRule).None? ==> req == None && error == UpdateFailed && rules == old(rules) && editingRule == None
      ensures old(editingRule).Some? ==> req == Some(UpdateRule(old(editingRule).value.id, old(editingRule).value))
      ensures old(editingRule).Some? && reply.Ok? ==>
                rules == ReplaceById(old(rules), old(editingRule).value.id, reply.payload)
                && editingRule == None && error == old(error)
      ensures old(editingRule).Some? && reply.Err? ==>
                rules == old(rules) && editingRule == old(editingRule) && error == UpdateFailed
      ensures newRule == old(newRule) && showAddForm == old(showAddForm) && loading == old(loading)
    {
      if editingRule.None? {
        req := None;
        error := UpdateFailed;
        return;
      }
      var draft := editingRule.value;
      req := Some(UpdateRule(draft.id, draft));
      if reply.Ok? {
        rules := ReplaceById(rules, draft.id, reply.payload);
        editingRule := None;
      } else {
        error := UpdateFailed;
      }
    }

    /** `handleDeleteRule`: only after the user confirms; on success drop every rule with that id.
        An open edit stays open. */
    method HandleDeleteRule(id: RuleId, confirmed: bool, reply: Reply<()>) returns (req: Option<Request>)
      modifies this
      ensures !confirmed ==> req == None && rules == old(rules) && error == old(error)
      ensures confirmed ==> req == Some(DeleteRule(id))
      ensures confirmed && reply.Ok? ==> rules == RemoveById(old(rules), id) && error == old(error)
      ensures confirmed && reply.Err? ==> rules == old(rules) && error == DeleteFailed
      ensures editingRule == old(editingRule) && newRule == old(newRule)
      ensures showAddForm == old(showAddForm) && loading == old(loading)
    {
      req := None;
      if confirmed {
        req := Some(DeleteRule(id));
        if reply.Ok? {
          rules := RemoveById(rules, id);
        } else {
          error := DeleteFailed;
        }
      }
    }

    /** `handleTestRule`: shows the server's message in a popup and changes no rule or draft. */
    method HandleTestRule(id: RuleId, reply: Reply<string>) returns (req: Request, shown: Option<string>)
      modifies this
      ensures req == TestRule(id)
      ensures reply.Ok? ==> shown == Some(TestResultPrefix + reply.payload) && error == old(error)
      ensures reply.Err? ==> shown == None && error == TestFailed
      ensures rules == old(rules) && newRule == old(newRule) && editingRule == old(editingRule)
      ensures showAddForm == old(showAddForm) && loading == old(loading)
    {
      req := TestRule(id);
      if reply.Ok? {
        shown := Some(TestResultPrefix + reply.payload);
      } else {
        shown := None;
        error := TestFailed;
      }
    }

    /** The row's edit button: `setEditingRule({...rule})`, replacing any open edit. */
    method BeginEdit(rule: Rule)
      modifies this`editingRule
      ensures editingRule == Some(rule)
    {
      editingRule := Some(rule);
    }

    /** The edit row's cancel button: `setEditingRule(null)`. */
    method CancelEdit()
      modifies this`editingRule
      ensures editingRule == None
    {
      editingRule := None;
    }

    /** The header button: flips the add form and keeps the draft. */
    method ToggleAddForm()
      modifies this`showAddForm
      ensures showAddForm == !old(showAddForm)
    {
      showAddForm := !showAddForm;
    }

    /** The add form's cancel button: resets the draft and closes the form. */
    method CancelAddForm()
      modifies this`newRule, this`showAddForm
      ensures newRule == EmptyDraft && !showAddForm
    {
      newRule := EmptyDraft;
      showAddForm := false;
    }
  }
}
