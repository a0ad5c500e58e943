/** The static tool registry `tools` of `my_agent.py`: the list of tools bound to the
    model and handed to the tool-executing node. */
module ToolRegistry {
  import opened Wrappers

  /** The Python type of a tool parameter, as its annotation declares it. */
  datatype ParamType = IntParam | FloatParam | StrParam | IntListParam

  datatype Param = Param(name: string, kind: ParamType)

  /** Where a tool's description comes from: the `description=` argument of the
      decorator, or (for a bare decorator) the function's docstring, given here by its
      summary line. */
  datatype Description = Given(text: string) | Docstring(summary: string)

  datatype ToolDescriptor = ToolDescriptor(name: string, description: Description, params: seq<Param>)

  const IntPair := [Param("a", IntParam), Param("b", IntParam)]

  /** The names in the list `tools`, in order. */
  const RegistryNames: seq<string> := [
    "add", "subtract", "multiply", "divide", "modulus", "power", "square_root",
    "web_search", "wiki_search", "arxiv_search", "analyze_csv_file", "analyze_excel_file",
    "execute_python_script", "reverse_string", "scrape_website", "scrape_youtube", "chess_to_fen"
  ]

  /** The registered tools, in the order of the list. */
  const Registry: seq<ToolDescriptor> :=
    seq(|RegistryNames|, i requires 0 <= i < |RegistryNames| => Declared(RegistryNames[i]))

  /** The tool the module defines under `name`: the description its decorator declares and
      the parameters its signature declares. A name the module defines no tool under gets
      no description and no parameters. */
  function Declared(name: string): (t: ToolDescriptor)
    ensures t.name == name
  {
    var (description, params) :=
      if name == "add" then (Given("A tool to add two numbers."), [Param("toAdd", IntListParam)])
      else if name == "subtract" then (Given("A tool to subtract two numbers."), IntPair)
      else if name == "multiply" then (Given("A tool to multiply two numbers."), IntPair)
      else if name == "divide" then (Given("A tool to divide two numbers"), IntPair)
      else if name == "modulus" then (Given("A tool to find modulus of two numbers"), IntPair)
      else if name == "power" then
        (Given("A tool to get the absolute value of a number."), [Param("a", FloatParam), Param("b", FloatParam)])
      else if name == "square_root" then
        (Given("A tool to get the absolute value of a number."), [Param("a", FloatParam)])
      else if name == "web_search" then
        (Given("A tool to search the web for a query and return maximum 3 results."), [Param("query", StrParam)])
      else if name == "wiki_search" then
        (Given("A tool to search Wikipedia for a query and return maximum 2 results."), [Param("query", StrParam)])
      else if name == "arxiv_search" then
        (Given("A tool to search Arxiv for a query and return maximum 3 results."), [Param("query", StrParam)])
      else if name == "extract_text_from_image" then
        (Given("A tool to extract text from an image using OCR library pytesseract."), [Param("image_path", StrParam)])
      else if name == "analyze_csv_file" then
        (Given("A tool to analyze a CSV file using pandas and answer a question about it."),
         [Param("file_path", StrParam), Param("query", StrParam)])
      else if name == "analyze_excel_file" then
        (Given("A tool to analyze an Excel file using pandas and answer a question about it."),
         [Param("file_path", StrParam), Param("query", StrParam)])
      else if name == "execute_python_script" then
        (Docstring("Execute a Python script and return the output."), [Param("file_path", StrParam)])
      else if name == "reverse_string" then (Docstring("Reverse a string."), [Param("string", StrParam)])
      else if name == "scrape_website" then
        (Given("A tool to scrape a website and return the text."), [Param("url", StrParam)])
      else if name == "scrape_youtube" then
        (Given("A tool to scrape a youtube video and return the text."), [Param("url", StrParam)])
      else if name == "chess_to_fen" then
        (Given("A tool to analyze a chess.com screenshot and return the FEN notation."),
         [Param("screenshot_path", StrParam)])
      else (Given(""), []);
    ToolDescriptor(name, description, params)
  }

  /** The names of the tools, in registry order. */
  function Names(ts: seq<ToolDescriptor>): (ns: seq<string>)
    ensures |ns| == |ts| && forall i :: 0 <= i < |ts| ==> ns[i] == ts[i].name
  {
    if ts == [] then [] else [ts[0].name] + Names(ts[1..])
  }

  predicate NamesDistinct(ts: seq<ToolDescriptor>)
  {
    forall i, j :: 0 <= i < j < |ts| ==> ts[i].name != ts[j].name
  }

  /** The tool a call by `name` reaches: a registered tool of that name. (`ToolNode` keys a
      dictionary by name in list order, so of two tools with one name the later wins; the
      registry's names are distinct, `RegistryShape`, so this choice never matters.) */
  function Lookup(ts: seq<ToolDescriptor>, name: string): (r: Option<ToolDescriptor>)
    ensures r.None? <==> name !in Names(ts)
    ensures r.Some? ==> r.value in ts && r.value.name == name
  {
    if ts == [] then None
    else if ts[0].name == name then Some(ts[0])
    else Lookup(ts[1..], name)
  }

  /** With distinct names, looking a registered tool up by its name finds that tool. */
  lemma {:induction false} LookupFindsEachTool(ts: seq<ToolDescriptor>, i: nat)
    requires NamesDistinct(ts) && i < |ts|
    ensures Lookup(ts, ts[i].name) == Some(ts[i])
  {
    if i > 0 {
      assert ts[0].name != ts[i].name;
      assert NamesDistinct(ts[1..]) by {
        forall j, k | 0 <= j < k < |ts| - 1 ensures ts[1..][j].name != ts[1..][k].name {
          assert ts[1..][j] == ts[j + 1] && ts[1..][k] == ts[k + 1];
        }
      }
      LookupFindsEachTool(ts[1..], i - 1);
    }
  }

  lemma RegistryNamesListed()
    ensures Names(Registry) == RegistryNames
  {
  }

  lemma RegistryNamesDiffer()
    ensures forall i, j :: 0 <= i < j < |RegistryNames| ==> RegistryNames[i] != RegistryNames[j]
    ensures "extract_text_from_image" !in RegistryNames
    ensures "execute_code_multilang" !in RegistryNames
    ensures "analyze_image" !in RegistryNames
  {
  }

  /** The registry holds seventeen tools with pairwise distinct names. */
  lemma RegistryShape()
    ensures |Registry| == 17
    ensures NamesDistinct(Registry)
  {
    RegistryNamesListed();
    RegistryNamesDiffer();
    forall i, j | 0 <= i < j < |Registry| ensures Registry[i].name != Registry[j].name {
      assert Registry[i].name == RegistryNames[i] && Registry[j].name == RegistryNames[j];
    }
  }

  /** The tools that are commented out of the list are not registered. */
  lemma RegistryOmitsDisabledTools()
    ensures "extract_text_from_image" !in Names(Registry)
    ensures "execute_code_multilang" !in Names(Registry)
    ensures "analyze_image" !in Names(Registry)
  {
    RegistryNamesListed();
    RegistryNamesDiffer();
  }

  /** Every registered tool is reachable by its name. */
  lemma RegistryLookup(i: nat)
    requires i < |Registry|
    ensures Lookup(Registry, Registry[i].name) == Some(Registry[i])
  {
    RegistryShape();
    LookupFindsEachTool(Registry, i);
  }
}
