TestResult.DisplayName,TestResult.Outcome,TestResult.Duration,TestResult.ResourceCount,RandomSeed
JsText.Trim (well-formedness),Failed,00:00:00.8525657,2020813,0
JsText.TrimPieces (correctness),Failed,00:00:00.4252536,2018585,0
JsText.TrimEmptyIff (correctness),Passed,00:00:00.2883940,1288567,0
JsText.TrimStart (well-formedness),Passed,00:00:00.2532878,304908,0
JsText.AllWhitespace (well-formedness),Passed,00:00:00.1594563,11898,0
JsText.TrimEnd (well-formedness),Passed,00:00:00.1085074,126858,0
JsText.TrimIdempotent (correctness),Passed,00:00:00.0333800,41316,0
JsText.TrimPieces (well-formedness),Passed,00:00:00.0230151,48657,0
JsText.WhitespaceConcat (correctness),Passed,00:00:00.0224888,21073,0
JsText.Prefix (well-formedness),Passed,00:00:00.0179637,10623,0
