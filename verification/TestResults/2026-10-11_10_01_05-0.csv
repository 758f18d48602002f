TestResult.DisplayName,TestResult.Outcome,TestResult.Duration,TestResult.ResourceCount,RandomSeed
PeakyBlinders.RespondStaysInScenes (correctness),Passed,00:00:00.5187552,712879,1
Mcu.RespondStaysInScenes (correctness),Passed,00:00:00.3459209,336386,1
