/**
 * The shape checks applied to the two JSON configuration files before the
 * application uses them (`ConfigValidator`). The validator configuration
 * must hold a non-empty `categories` array of objects, each with a string
 * `parent_item` and an array of strings `sub_items`. The modifier
 * configuration may hold `auto_renewal_rules`, `metadata_prefixes` and
 * `display_name_maps`; each one present must have the expected type, and
 * every renewal rule needs a string `header_location`, a numeric `amount`
 * and a string `description`.
 *
 * A JSON value follows the JSON library's model: an object is a map from
 * keys to values, and `contains` is false on anything but an object.
 */
module ConfigValidation {
  import opened Strings

  datatype Json =
    | JNull
    | JBool(b: bool)
    | JNumber(n: real)
    | JString(s: string)
    | JArray(items: seq<Json>)
    | JObject(members: map<string, Json>)

  /** `json::contains`. */
  predicate Contains(j: Json, key: string) {
    j.JObject? && key in j.members
  }

  /** Why a configuration is rejected, one value per message the validator writes. */
  datatype ConfigError =
    | NoCategories
    | CategoryNotObject
    | MissingParentItem
    | MissingSubItems
    | SubItemNotString
    | RenewalNotObject
    | EnabledNotBoolean
    | RulesNotArray
    | RuleNotObject
    | MissingHeaderLocation
    | MissingAmount
    | MissingDescription
    | PrefixesNotArray
    | DisplayMapsNotObject

  /** The text written to `error_message`. */
  function Message(e: ConfigError): string {
    match e
    case NoCategories => "配置错误: 'Validator_Config.json' 必须包含一个名为 'categories' 的非空数组。"
    case CategoryNotObject => "配置错误: 'categories' 数组中的元素必须是对象。"
    case MissingParentItem => "配置错误: 'categories' 中的某个对象缺少 'parent_item' 字符串键。"
    case MissingSubItems => "配置错误: 'categories' 中的某个对象缺少 'sub_items' 数组键。"
    case SubItemNotString => "配置错误: 'sub_items' 数组中的某个值不是字符串。"
    case RenewalNotObject => "配置错误: 'auto_renewal_rules' 的值必须是一个对象。"
    case EnabledNotBoolean => "配置错误: 'auto_renewal_rules' 对象中的 'enabled' 键值必须是布尔类型。"
    case RulesNotArray => "配置错误: 'auto_renewal_rules' 对象中的 'rules' 键值必须是数组。"
    case RuleNotObject => "配置错误: 'rules' 数组的元素必须是对象。"
    case MissingHeaderLocation => "配置错误: 'rules' 对象缺少 'header_location' 字符串键。"
    case MissingAmount => "配置错误: 'rules' 对象缺少 'amount' 数字键。"
    case MissingDescription => "配置错误: 'rules' 对象缺少 'description' 字符串键。"
    case PrefixesNotArray => "配置错误: 'metadata_prefixes' 的值必须是字符串数组。"
    case DisplayMapsNotObject => "配置错误: 'display_name_maps' 的值必须是对象。"
  }

  /** The error of the first element that fails `check`, as the range-for loops compute it by returning at the first failure. */
  function FirstError(xs: seq<Json>, check: Json -> Option<ConfigError>): (r: Option<ConfigError>)
    decreases |xs|
  {
    if xs == [] then None
    else if check(xs[0]).Some? then check(xs[0])
    else FirstError(xs[1..], check)
  }

  // ------------------------------------------------- the validator config

  function SubItemError(s: Json): Option<ConfigError> {
    if s.JString? then None else Some(SubItemNotString)
  }

  /** The checks on one element of `categories`, in the order the loop makes them. */
  function CategoryError(c: Json): Option<ConfigError> {
    if !c.JObject? then Some(CategoryNotObject)
    else if !Contains(c, "parent_item") || !c.members["parent_item"].JString? then Some(MissingParentItem)
    else if !Contains(c, "sub_items") || !c.members["sub_items"].JArray? then Some(MissingSubItems)
    else FirstError(c.members["sub_items"].items, SubItemError)
  }

  /** `validate_validator_config`: `None` when it returns true. */
  function ValidatorConfigError(config: Json): Option<ConfigError> {
    if !Contains(config, "categories") || !config.members["categories"].JArray?
      || config.members["categories"].items == []
    then Some(NoCategories)
    else FirstError(config.members["categories"].items, CategoryError)
  }

  predicate StringArray(j: Json) {
    j.JArray? && forall i :: 0 <= i < |j.items| ==> j.items[i].JString?
  }

  /** A category the configuration may hold. */
  predicate WellFormedCategory(c: Json) {
    && Contains(c, "parent_item") && c.members["parent_item"].JString?
    && Contains(c, "sub_items") && StringArray(c.members["sub_items"])
  }

  /** A validator configuration the application accepts, stated without the order of the checks. */
  predicate WellFormedValidatorConfig(config: Json) {
    && Contains(config, "categories")
    && config.members["categories"].JArray?
    && |config.members["categories"].items| > 0
    && forall i :: 0 <= i < |config.members["categories"].items| ==>
         WellFormedCategory(config.members["categories"].items[i])
  }

  // -------------------------------------------------- the modifier config

  /** The checks on one element of `rules`. */
  function RuleError(r: Json): Option<ConfigError> {
    if !r.JObject? then Some(RuleNotObject)
    else if !Contains(r, "header_location") || !r.members["header_location"].JString? then Some(MissingHeaderLocation)
    else if !Contains(r, "amount") || !r.members["amount"].JNumber? then Some(MissingAmount)
    else if !Contains(r, "description") || !r.members["description"].JString? then Some(MissingDescription)
    else None
  }

  /** The checks on the value of `auto_renewal_rules`. */
  function RenewalError(rc: Json): Option<ConfigError> {
    if !rc.JObject? then Some(RenewalNotObject)
    else if Contains(rc, "enabled") && !rc.members["enabled"].JBool? then Some(EnabledNotBoolean)
    else if !Contains(rc, "rules") then None
    else if !rc.members["rules"].JArray? then Some(RulesNotArray)
    else FirstError(rc.members["rules"].items, RuleError)
  }

  /** The checks on the two other optional keys. */
  function TopLevelError(config: Json): Option<ConfigError> {
    if Contains(config, "metadata_prefixes") && !config.members["metadata_prefixes"].JArray? then Some(PrefixesNotArray)
    else if Contains(config, "display_name_maps") && !config.members["display_name_maps"].JObject? then Some(DisplayMapsNotObject)
    else None
  }

  /** `validate_modifier_config`: `None` when it returns true. */
  function ModifierConfigError(config: Json): Option<ConfigError> {
    var renewal := if Contains(config, "auto_renewal_rules") then RenewalError(config.members["auto_renewal_rules"]) else None;
    if renewal.Some? then renewal else TopLevelError(config)
  }

  predicate WellFormedRule(r: Json) {
    && Contains(r, "header_location") && r.members["header_location"].JString?
    && Contains(r, "amount") && r.members["amount"].JNumber?
    && Contains(r, "description") && r.members["description"].JString?
  }

  predicate WellFormedRenewal(rc: Json) {
    && rc.JObject?
    && (Contains(rc, "enabled") ==> rc.members["enabled"].JBool?)
    && (Contains(rc, "rules") ==>
         && rc.members["rules"].JArray?
         && forall i :: 0 <= i < |rc.members["rules"].items| ==> WellFormedRule(rc.members["rules"].items[i]))
  }

  /** A modifier configuration the application accepts, stated without the order of the checks. */
  predicate WellFormedModifierConfig(config: Json) {
    && (Contains(config, "auto_renewal_rules") ==> WellFormedRenewal(config.members["auto_renewal_rules"]))
    && (Contains(config, "metadata_prefixes") ==> config.members["metadata_prefixes"].JArray?)
    && (Contains(config, "display_name_maps") ==> config.members["display_name_maps"].JObject?)
  }

  // ------------------------------------------------------------- lemmas

  /**
   * The loop finds no error exactly when every element passes, and an
   * error it reports is that of an element all of whose predecessors pass.
   */
  lemma {:induction false} FirstErrorSpec(xs: seq<Json>, check: Json -> Option<ConfigError>)
    ensures FirstError(xs, check).None? <==> forall i :: 0 <= i < |xs| ==> check(xs[i]).None?
    ensures FirstError(xs, check).Some? ==>
      exists i :: 0 <= i < |xs| && check(xs[i]) == FirstError(xs, check)
        && forall j :: 0 <= j < i ==> check(xs[j]).None?
    decreases |xs|
  {
    if xs != [] && check(xs[0]).None? {
      FirstErrorSpec(xs[1..], check);
      assert forall i :: 1 <= i < |xs| ==> xs[i] == xs[1..][i - 1];
      if FirstError(xs, check).Some? {
        var k :| 0 <= k < |xs[1..]| && check(xs[1..][k]) == FirstError(xs[1..], check)
          && forall j :: 0 <= j < k ==> check(xs[1..][j]).None?;
        assert check(xs[k + 1]) == FirstError(xs, check);
        forall j | 0 <= j < k + 1 ensures check(xs[j]).None? {
          if j > 0 { assert xs[j] == xs[1..][j - 1]; }
        }
      }
    } else if xs != [] {
      assert check(xs[0]) == FirstError(xs, check);
    }
  }

  lemma {:induction false} CategorySpec(c: Json)
    ensures CategoryError(c).None? <==> WellFormedCategory(c)
  {
    if c.JObject? && Contains(c, "sub_items") && c.members["sub_items"].JArray? {
      var subs := c.members["sub_items"].items;
      FirstErrorSpec(subs, SubItemError);
      assert (forall i :: 0 <= i < |subs| ==> SubItemError(subs[i]).None?) <==> StringArray(c.members["sub_items"]);
    }
  }

  /**
   * The validator configuration is accepted exactly when `categories` is a
   * non-empty array whose every element is an object with a string
   * `parent_item` and an array of strings `sub_items`.
   */
  lemma {:induction false} ValidatorConfigSpec(config: Json)
    ensures ValidatorConfigError(config).None? <==> WellFormedValidatorConfig(config)
  {
    if Contains(config, "categories") && config.members["categories"].JArray? {
      var cs := config.members["categories"].items;
      FirstErrorSpec(cs, CategoryError);
      forall i | 0 <= i < |cs| ensures CategoryError(cs[i]).None? <==> WellFormedCategory(cs[i]) {
        CategorySpec(cs[i]);
      }
    }
  }

  /** Whatever else holds, a configuration without a non-empty `categories` array is rejected with that message. */
  lemma {:induction false} CategoriesRequired(config: Json)
    requires !Contains(config, "categories") || !config.members["categories"].JArray?
      || config.members["categories"].items == []
    ensures ValidatorConfigError(config) == Some(NoCategories)
  {
  }

  lemma {:induction false} RenewalSpec(rc: Json)
    ensures RenewalError(rc).None? <==> WellFormedRenewal(rc)
  {
    if rc.JObject? && Contains(rc, "rules") && rc.members["rules"].JArray? {
      var rules := rc.members["rules"].items;
      FirstErrorSpec(rules, RuleError);
      assert forall i :: 0 <= i < |rules| ==> (RuleError(rules[i]).None? <==> WellFormedRule(rules[i]));
    }
  }

  /**
   * The modifier configuration is accepted exactly when every optional key
   * that is present has the expected shape, and every renewal rule has a
   * string `header_location`, a numeric `amount` and a string `description`.
   */
  lemma {:induction false} ModifierConfigSpec(config: Json)
    ensures ModifierConfigError(config).None? <==> WellFormedModifierConfig(config)
  {
    if Contains(config, "auto_renewal_rules") {
      RenewalSpec(config.members["auto_renewal_rules"]);
    }
  }

  /** A modifier configuration with none of the optional keys is accepted. */
  lemma {:induction false} NoOptionalKeysAccepted(config: Json)
    requires !Contains(config, "auto_renewal_rules")
    requires !Contains(config, "metadata_prefixes")
    requires !Contains(config, "display_name_maps")
    ensures ModifierConfigError(config).None?
  {
  }

  /** Since `contains` is false on anything but an object, a modifier configuration that is not an object passes. */
  lemma {:induction false} NonObjectModifierAccepted(config: Json)
    requires !config.JObject?
    ensures ModifierConfigError(config).None?
    ensures ValidatorConfigError(config) == Some(NoCategories)
  {
  }

  /** Only the array shape of `metadata_prefixes` is checked: an array holding a number passes. */
  lemma {:induction false} PrefixElementsUnchecked()
    ensures ModifierConfigError(JObject(map["metadata_prefixes" := JArray([JNumber(1.0)])])).None?
  {
    var config := JObject(map["metadata_prefixes" := JArray([JNumber(1.0)])]);
    assert !Contains(config, "auto_renewal_rules") && !Contains(config, "display_name_maps");
  }

  // ------------------------------------------------------------ the methods

  /** The inner loop over `sub_items`, with the checks before it. */
  method CheckCategory(c: Json) returns (e: Option<ConfigError>)
    ensures e == CategoryError(c)
  {
    if !c.JObject? {
      return Some(CategoryNotObject);
    }
    if !Contains(c, "parent_item") || !c.members["parent_item"].JString? {
      return Some(MissingParentItem);
    }
    if !Contains(c, "sub_items") || !c.members["sub_items"].JArray? {
      return Some(MissingSubItems);
    }
    var subs := c.members["sub_items"].items;
    var k := 0;
    while k < |subs|
      invariant 0 <= k <= |subs|
      invariant FirstError(subs[k..], SubItemError) == FirstError(subs, SubItemError)
    {
      assert subs[k..][1..] == subs[k + 1..];
      if !subs[k].JString? {
        return Some(SubItemNotString);
      }
      k := k + 1;
    }
    return None;
  }

  /**
   * `validate_validator_config`: `error_message` is overwritten with the
   * message of the first failed check and left as it was on success.
   */
  method ValidateValidatorConfig(config: Json, errorMessage: string) returns (ok: bool, message: string)
    ensures ok <==> ValidatorConfigError(config).None?
    ensures ok ==> message == errorMessage
    ensures !ok ==> message == Message(ValidatorConfigError(config).value)
  {
    if !Contains(config, "categories") || !config.members["categories"].JArray?
      || config.members["categories"].items == []
    {
      return false, Message(NoCategories);
    }
    var cs := config.members["categories"].items;
    var i := 0;
    while i < |cs|
      invariant 0 <= i <= |cs|
      invariant FirstError(cs[i..], CategoryError) == FirstError(cs, CategoryError)
    {
      assert cs[i..][1..] == cs[i + 1..];
      var e := CheckCategory(cs[i]);
      if e.Some? {
        return false, Message(e.value);
      }
      i := i + 1;
    }
    return true, errorMessage;
  }

  /** The loop over `rules`. */
  method CheckRules(rules: seq<Json>) returns (e: Option<ConfigError>)
    ensures e == FirstError(rules, RuleError)
  {
    var i := 0;
    while i < |rules|
      invariant 0 <= i <= |rules|
      invariant FirstError(rules[i..], RuleError) == FirstError(rules, RuleError)
    {
      assert rules[i..][1..] == rules[i + 1..];
      var rule := rules[i];
      if !rule.JObject? {
        return Some(RuleNotObject);
      }
      if !Contains(rule, "header_location") || !rule.members["header_location"].JString? {
        return Some(MissingHeaderLocation);
      }
      if !Contains(rule, "amount") || !rule.members["amount"].JNumber? {
        return Some(MissingAmount);
      }
      if !Contains(rule, "description") || !rule.members["description"].JString? {
        return Some(MissingDescription);
      }
      i := i + 1;
    }
    return None;
  }

  /**
   * `validate_modifier_config`: `error_message` is overwritten with the
   * message of the first failed check and left as it was on success.
   */
  method ValidateModifierConfig(config: Json, errorMessage: string) returns (ok: bool, message: string)
    ensures ok <==> ModifierConfigError(config).None?
    ensures ok ==> message == errorMessage
    ensures !ok ==> message == Message(ModifierConfigError(config).value)
  {
    if Contains(config, "auto_renewal_rules") {
      var rc := config.members["auto_renewal_rules"];
      if !rc.JObject? {
        return false, Message(RenewalNotObject);
      }
      if Contains(rc, "enabled") && !rc.members["enabled"].JBool? {
        return false, Message(EnabledNotBoolean);
      }
      if Contains(rc, "rules") {
        if !rc.members["rules"].JArray? {
          return false, Message(RulesNotArray);
        }
        var e := CheckRules(rc.members["rules"].items);
        if e.Some? {
          return false, Message(e.value);
        }
      }
    }
    if Contains(config, "metadata_prefixes") && !config.members["metadata_prefixes"].JArray? {
      return false, Message(PrefixesNotArray);
    }
    if Contains(config, "display_name_maps") && !config.members["display_name_maps"].JObject? {
      return false, Message(DisplayMapsNotObject);
    }
    return true, errorMessage;
  }
}
