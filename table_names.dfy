/** Table naming: the `__tablename__` a model class gets when it does not set one, from its
    lower-cased class name and the osTicket table prefix. */
module TableNames {
  import opened PyText

  /** `get_table_name`: the configured prefix in front of the name. */
  function GetTableName(prefix: string, name: string): (t: string)
    ensures StartsWith(t, prefix) && t[|prefix|..] == name
  {
    var t := prefix + name;
    assert t[..|prefix|] == prefix && t[|prefix|..] == name;
    t
  }

  /** The class names whose tables osTicket spells with underscores. */
  const Mapping: map<string, string> := map[
    "apikey" := "api_key",
    "ticketstatus" := "ticket_status",
    "ticketpriority" := "ticket_priority",
    "useremail" := "user_email",
    "useraccount" := "user_account",
    "staffdeptaccess" := "staff_dept_access",
    "threadcollaborator" := "thread_collaborator",
    "faqcategory" := "faq_category",
    "faqtopic" := "faq_topic",
    "helptopic" := "help_topic",
    "helptopicform" := "help_topic_form",
    "cannedresponse" := "canned_response",
    "emailaccount" := "email_account",
    "emailtemplate" := "email_template",
    "emailtemplategroup" := "email_template_group",
    "formentry" := "form_entry",
    "formentryvalues" := "form_entry_values",
    "formfield" := "form_field",
    "listitem" := "list_items",
    "queuecolumn" := "queue_column",
    "queuecolumns" := "queue_columns",
    "queueconfig" := "queue_config",
    "queueexport" := "queue_export",
    "queuesort" := "queue_sort",
    "queuesorts" := "queue_sorts",
    "filterrule" := "filter_rule",
    "filteraction" := "filter_action",
    "plugininstance" := "plugin_instance",
    "taskcdata" := "task__cdata",
    "usercdata" := "user__cdata",
    "organizationcdata" := "organization__cdata",
    "ticketcdata" := "ticket__cdata",
    "threadentry" := "thread_entry",
    "threadentryemail" := "thread_entry_email",
    "threadentrymerge" := "thread_entry_merge",
    "threadevent" := "thread_event",
    "threadreferral" := "thread_referral",
    "scheduleentry" := "schedule_entry",
    "teammember" := "team_member",
    "searchindex" := "__search"]

  /** `table_mappings.get(class_name, class_name)`. */
  function MappedName(className: string): (n: string)
    ensures className !in Mapping ==> n == className
    ensures className in Mapping ==> n == Mapping[className]
  {
    if className in Mapping then Mapping[className] else className
  }

  /** `Base.__tablename__`: the prefix and the lower-cased class name, without the mapping. */
  function BaseTableName(prefix: string, className: string): (t: string)
    ensures StartsWith(t, prefix) && t[|prefix|..] == Lower(className)
  {
    GetTableName(prefix, Lower(className))
  }

  /** `OSTicketBase.__tablename__`: the prefix and the mapped lower-cased class name. */
  function OSTicketTableName(prefix: string, className: string): (t: string)
    ensures StartsWith(t, prefix) && t[|prefix|..] == MappedName(Lower(className))
  {
    GetTableName(prefix, MappedName(Lower(className)))
  }

  /** A class whose lower-cased name is not in the mapping gets the same table name from
      both bases. */
  lemma UnmappedPassesThrough(prefix: string, className: string)
    requires Lower(className) !in Mapping
    ensures OSTicketTableName(prefix, className) == BaseTableName(prefix, className)
  {
  }

  /** Each mapped table name differs from the lower-cased class name it replaces, so the two
      bases disagree on exactly the mapped classes. */
  lemma MappedClassesDiffer(prefix: string, className: string)
    ensures OSTicketTableName(prefix, className) == BaseTableName(prefix, className) <==> Lower(className) !in Mapping
  {
    var n := Lower(className);
    if n in Mapping {
      MappingRenames(n);
      var a, b := OSTicketTableName(prefix, className), BaseTableName(prefix, className);
      assert a[|prefix|..] != b[|prefix|..];
    }
  }

  /** No entry of the mapping maps a name to itself. */
  lemma MappingRenames(n: string)
    requires n in Mapping
    ensures Mapping[n] != n
  {
  }

  /** Lookups use the exact lower-cased class name. */
  lemma MappingExamples(prefix: string, className: string)
    ensures Lower(className) == "searchindex" ==> OSTicketTableName(prefix, className) == prefix + "__search"
    ensures Lower(className) == "taskcdata" ==> OSTicketTableName(prefix, className) == prefix + "task__cdata"
    ensures Lower(className) == "threadentry" ==> OSTicketTableName(prefix, className) == prefix + "thread_entry"
    ensures Lower(className) == "threadentry" ==> BaseTableName(prefix, className) == prefix + "threadentry"
  {
  }
}
